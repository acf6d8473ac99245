/** The scoped guards: one guard object seen from the calls it makes on its lock, and any number of
    guards of any number of threads on one lock, step by step.

    The three guard templates of the source differ only in how they acquire; `Kind` says which. */
module Guards {
  import opened Wrappers

  /** `Plain` guards a mutex or a `CASLock`, the other two a read/write lock. */
  datatype Kind = Plain | Reading | Writing

  // ----- one guard, and the calls its lock sees

  datatype Call = Acquire(kind: Kind) | Release

  /** What the owner of a guard may do between its construction and its destruction. */
  datatype Op = Lock | Unlock

  class Mutex {
    var calls: seq<Call>

    constructor ()
      ensures calls == []
    {
      calls := [];
    }

    method Note(call: Call)
      modifies this
      ensures calls == old(calls) + [call]
    {
      calls := calls + [call];
    }
  }

  class Guard {
    const m_mutex: Mutex
    const kind: Kind
    var m_locked: bool

    constructor (mutex: Mutex, kind: Kind)
      modifies mutex
      ensures m_mutex == mutex && this.kind == kind && m_locked
      ensures mutex.calls == old(mutex.calls) + [Acquire(kind)]
    {
      m_mutex, this.kind := mutex, kind;
      new;
      m_mutex.Note(Acquire(kind));
      m_locked := true;
    }

    method Lock()
      modifies this, m_mutex
      ensures m_locked
      ensures m_mutex.calls == old(m_mutex.calls) + if old(m_locked) then [] else [Acquire(kind)]
    {
      if !m_locked {
        m_mutex.Note(Acquire(kind));
        m_locked := true;
      }
    }

    /** Also what the destructor does. */
    method Unlock()
      modifies this, m_mutex
      ensures !m_locked
      ensures m_mutex.calls == old(m_mutex.calls) + if old(m_locked) then [Release] else []
    {
      if m_locked {
        m_mutex.Note(Release);
        m_locked := false;
      }
    }
  }

  /** Acquire, release, acquire, release, and so on: `n` times both, and then once more the first if
      `open`. */
  ghost predicate Alternates(calls: seq<Call>, kind: Kind, n: nat, open: bool) {
    && |calls| == 2 * n + (if open then 1 else 0)
    && forall i :: 0 <= i < |calls| ==> calls[i] == if i % 2 == 0 then Acquire(kind) else Release
  }

  lemma AlternatesSnoc(calls: seq<Call>, kind: Kind, n: nat, open: bool)
    requires Alternates(calls, kind, n, open)
    ensures !open ==> Alternates(calls + [Acquire(kind)], kind, n, true)
    ensures open ==> Alternates(calls + [Release], kind, n + 1, false)
  {
    assert open <==> |calls| % 2 == 1;
  }

  /** How often `ops` lock a guard that is unlocked. */
  function Relocks(ops: seq<Op>, locked: bool): nat {
    if ops == [] then 0
    else (if ops[0].Lock? && !locked then 1 else 0) + Relocks(ops[1..], ops[0].Lock?)
  }

  lemma {:induction false} RelocksSnoc(ops: seq<Op>, op: Op, locked: bool)
    ensures Relocks(ops + [op], locked)
         == Relocks(ops, locked)
            + if op.Lock? && !(if ops == [] then locked else ops[|ops| - 1].Lock?) then 1 else 0
    decreases |ops|
  {
    if ops == [] {
      assert Relocks([op][1..], op.Lock?) == 0;
    } else {
      assert (ops + [op])[1..] == ops[1..] + [op];
      RelocksSnoc(ops[1..], op, ops[0].Lock?);
    }
  }

  /** What the lock has seen after `op`. */
  ghost function Logged(log: seq<Call>, kind: Kind, locked: bool, op: Op): seq<Call> {
    if op.Lock? && !locked then log + [Acquire(kind)] else if op.Unlock? && locked then log + [Release] else log
  }

  lemma LoggedAlternates(log: seq<Call>, kind: Kind, locked: bool, ops: seq<Op>, i: nat)
    requires i < |ops| && locked == (i == 0 || ops[i - 1].Lock?)
    requires Alternates(log, kind, Relocks(ops[..i], true) + if locked then 0 else 1, locked)
    ensures var open := ops[i].Lock?;
      Alternates(Logged(log, kind, locked, ops[i]), kind, Relocks(ops[..i + 1], true) + if open then 0 else 1, open)
  {
    assert ops[..i + 1] == ops[..i] + [ops[i]];
    RelocksSnoc(ops[..i], ops[i], true);
    AlternatesSnoc(log, kind, Relocks(ops[..i], true) + if locked then 0 else 1, locked);
  }

  /** The whole life of a guard.  Whatever its owner does with it, the lock sees nothing but complete
      pairs of one acquire and one release. */
  method Live(mutex: Mutex, kind: Kind, ops: seq<Op>)
    modifies mutex
    ensures |old(mutex.calls)| <= |mutex.calls| && mutex.calls[..|old(mutex.calls)|] == old(mutex.calls)
    ensures Alternates(mutex.calls[|old(mutex.calls)|..], kind, 1 + Relocks(ops, true), false)
  {
    var guard := new Guard(mutex, kind);
    ghost var log := [Acquire(kind)];
    assert Alternates(log, kind, 0, true);
    hide Alternates, Relocks;
    for i := 0 to |ops|
      invariant fresh(guard) && guard.m_mutex == mutex && guard.kind == kind
      invariant guard.m_locked == (i == 0 || ops[i - 1].Lock?)
      invariant mutex.calls == old(mutex.calls) + log
      invariant Alternates(log, kind, Relocks(ops[..i], true) + if guard.m_locked then 0 else 1, guard.m_locked)
    {
      LoggedAlternates(log, kind, guard.m_locked, ops, i);
      log := Logged(log, kind, guard.m_locked, ops[i]);
      if ops[i].Lock? { guard.Lock(); } else { guard.Unlock(); }
    }
    assert ops[..|ops|] == ops;
    AlternatesSnoc(log, kind, Relocks(ops, true) + if guard.m_locked then 0 else 1, guard.m_locked);
    log := Logged(log, kind, guard.m_locked, Unlock);
    guard.Unlock();
    assert mutex.calls[|old(mutex.calls)|..] == log;
  }

  // ----- many guards on one lock

  /** A lock as its users see it: the flag of a mutex or `CASLock`, or the state of a read/write lock. */
  datatype LockState = Flag(up: bool) | ReadersWriter(readers: nat, writer: bool)

  /** Program points of a guard's operations.  `Acquired` is between the acquire and the write of
      `m_locked`, `Releasing` between the test of `m_locked` and the release, `Released` between the
      release and the write of `m_locked`. */
  datatype Pc = Unborn | Acquiring | Acquired | Between | Releasing(dying: bool) | Released(dying: bool) | Dead

  datatype GuardState = GuardState(kind: Kind, pc: Pc, locked: bool)

  /** `broken` is an unlock of a lock nobody holds. */
  datatype System = System(lock: LockState, guards: seq<GuardState>, broken: bool)

  /** One step of guard `g`.  Before its constructor has written it, `m_locked` is any value. */
  datatype Move =
    | Construct(g: nat, garbage: bool)
    | CallLock(g: nat)
    | CallUnlock(g: nat)
    | Destroy(g: nat)
    | Go(g: nat)

  predicate Free(lock: LockState, kind: Kind) {
    match lock
    case Flag(up) => !up
    case ReadersWriter(readers, writer) => !writer && (kind.Reading? || readers == 0)
  }

  function Take(lock: LockState, kind: Kind): LockState {
    match lock
    case Flag(_) => Flag(true)
    case ReadersWriter(readers, writer) =>
      if kind.Reading? then ReadersWriter(readers + 1, writer) else ReadersWriter(readers, true)
  }

  /** The one `unlock` that readers and writers share: the lock knows which of them it has. */
  function Give(lock: LockState): LockState {
    match lock
    case Flag(_) => Flag(false)
    case ReadersWriter(readers, writer) =>
      if writer then ReadersWriter(readers, false)
      else ReadersWriter(if readers > 0 then readers - 1 else 0, false)
  }

  predicate Unheld(lock: LockState) {
    match lock
    case Flag(up) => !up
    case ReadersWriter(readers, writer) => readers == 0 && !writer
  }

  predicate Enabled(s: System, m: Move) {
    m.g < |s.guards| &&
    match m
    case Construct(g, _) => s.guards[g].pc == Unborn
    case CallLock(g) => s.guards[g].pc == Between
    case CallUnlock(g) => s.guards[g].pc == Between
    case Destroy(g) => s.guards[g].pc == Between
    case Go(g) => s.guards[g].pc.Acquiring? || s.guards[g].pc.Acquired? || s.guards[g].pc.Releasing? || s.guards[g].pc.Released?
  }

  function Set(s: System, g: nat, x: GuardState): System
    requires g < |s.guards|
  {
    s.(guards := s.guards[g := x])
  }

  /** `unlock()` begins with a look at `m_locked`. */
  function BeginUnlock(s: System, g: nat, dying: bool): System
    requires g < |s.guards|
  {
    var x := s.guards[g];
    if x.locked then Set(s, g, x.(pc := Releasing(dying)))
    else Set(s, g, x.(pc := if dying then Dead else Between))
  }

  function Next(s: System, m: Move): System
    requires Enabled(s, m)
  {
    var x := s.guards[m.g];
    match m
    case Construct(g, garbage) => Set(s, g, x.(pc := Acquiring, locked := garbage))
    case CallLock(g) => if x.locked then s else Set(s, g, x.(pc := Acquiring))
    case CallUnlock(g) => BeginUnlock(s, g, false)
    case Destroy(g) => BeginUnlock(s, g, true)
    case Go(g) =>
      match x.pc
      case Acquiring =>
        // A failed test-and-set writes what is already there, and the spin goes on.
        if Free(s.lock, x.kind) then Set(s, g, x.(pc := Acquired)).(lock := Take(s.lock, x.kind)) else s
      case Acquired => Set(s, g, x.(pc := Between, locked := true))
      case Releasing(dying) =>
        Set(s, g, x.(pc := Released(dying))).(lock := Give(s.lock), broken := s.broken || Unheld(s.lock))
      case Released(dying) => Set(s, g, x.(pc := if dying then Dead else Between, locked := false))
      case _ => s
  }

  /** Between its acquire and its release. */
  predicate Holds(x: GuardState) {
    x.pc.Acquired? || x.pc.Releasing? || (x.pc.Between? && x.locked)
  }

  function Holders(guards: seq<GuardState>): set<nat> {
    set g: nat | g < |guards| && Holds(guards[g])
  }

  function Readers(guards: seq<GuardState>): set<nat> {
    set g: nat | g < |guards| && Holds(guards[g]) && guards[g].kind.Reading?
  }

  predicate Initial(s: System) {
    && Unheld(s.lock) && !s.broken
    && forall g :: 0 <= g < |s.guards| ==> s.guards[g].pc == Unborn && (s.lock.Flag? <==> s.guards[g].kind.Plain?)
  }

  ghost predicate GuardsLead(s: System, moves: seq<Move>, r: System)
    decreases |moves|
  {
    if moves == [] then r == s
    else Enabled(s, moves[0]) && GuardsLead(Next(s, moves[0]), moves[1..], r)
  }

  ghost predicate GuardsReach(r: System) {
    exists s, moves :: Initial(s) && GuardsLead(s, moves, r)
  }

  /** Two holders are two readers. */
  ghost predicate Apart(guards: seq<GuardState>) {
    forall g, h :: g in Holders(guards) && h in Holders(guards) && g != h
      ==> guards[g].kind.Reading? && guards[h].kind.Reading?
  }

  /** The lock's own state says who holds it. */
  ghost predicate Truthful(lock: LockState, guards: seq<GuardState>) {
    match lock
    case Flag(up) => up <==> Holders(guards) != {}
    case ReadersWriter(readers, writer) =>
      readers == |Readers(guards)| && (writer <==> Holders(guards) != Readers(guards))
  }

  ghost predicate Good(s: System) {
    && !s.broken
    && (forall g :: 0 <= g < |s.guards| ==> (s.lock.Flag? <==> s.guards[g].kind.Plain?))
    && (forall g :: 0 <= g < |s.guards| && s.guards[g].pc.Releasing? ==> s.guards[g].locked)
    && Apart(s.guards) && Truthful(s.lock, s.guards)
  }

  /** A guard that neither takes nor gives up the lock. */
  lemma SameHolders(guards: seq<GuardState>, g: nat, x: GuardState)
    requires g < |guards| && x.kind == guards[g].kind && (Holds(x) <==> Holds(guards[g]))
    ensures Holders(guards[g := x]) == Holders(guards) && Readers(guards[g := x]) == Readers(guards)
  {
  }

  lemma OneMore(guards: seq<GuardState>, g: nat, x: GuardState)
    requires g < |guards| && x.kind == guards[g].kind && Holds(x) && !Holds(guards[g])
    ensures Holders(guards[g := x]) == Holders(guards) + {g}
    ensures Readers(guards[g := x]) == Readers(guards) + if x.kind.Reading? then {g} else {}
  {
  }

  lemma OneLess(guards: seq<GuardState>, g: nat, x: GuardState)
    requires g < |guards| && x.kind == guards[g].kind && !Holds(x) && Holds(guards[g])
    ensures Holders(guards[g := x]) == Holders(guards) - {g}
    ensures Readers(guards[g := x]) == Readers(guards) - {g}
  {
  }

  lemma AcquireGood(s: System, g: nat)
    requires Good(s) && g < |s.guards| && s.guards[g].pc.Acquiring? && Free(s.lock, s.guards[g].kind)
    ensures Good(Next(s, Go(g)))
  {
    OneMore(s.guards, g, s.guards[g].(pc := Acquired));
    if s.guards[g].kind.Reading? {
      assert Holders(s.guards) == Readers(s.guards);
    } else {
      assert Holders(s.guards) == {};
      assert g in Holders(Next(s, Go(g)).guards);
    }
  }

  lemma ReleaseGood(s: System, g: nat)
    requires Good(s) && g < |s.guards| && s.guards[g].pc.Releasing?
    ensures Good(Next(s, Go(g)))
    ensures !Unheld(s.lock)
  {
    var x := s.guards[g];
    assert g in Holders(s.guards);
    OneLess(s.guards, g, x.(pc := Released(x.pc.dying)));
    if x.kind.Reading? {
      assert g in Readers(s.guards);
      assert Holders(s.guards) == Readers(s.guards);
    } else {
      assert Holders(s.guards) == {g};
    }
  }

  lemma NextGood(s: System, m: Move)
    requires Good(s) && Enabled(s, m)
    ensures Good(Next(s, m))
  {
    var x := s.guards[m.g];
    if m.Go? && x.pc.Acquiring? && Free(s.lock, x.kind) {
      AcquireGood(s, m.g);
    } else if m.Go? && x.pc.Releasing? {
      ReleaseGood(s, m.g);
    } else {
      SameHolders(s.guards, m.g, Next(s, m).guards[m.g]);
      assert Next(s, m).guards == s.guards[m.g := Next(s, m).guards[m.g]];
    }
  }

  lemma {:induction false} LeadsGood(s: System, moves: seq<Move>, r: System)
    requires Good(s) && GuardsLead(s, moves, r)
    ensures Good(r)
    decreases |moves|
  {
    if moves != [] {
      NextGood(s, moves[0]);
      LeadsGood(Next(s, moves[0]), moves[1..], r);
    }
  }

  lemma ReachableGood(r: System)
    requires GuardsReach(r)
    ensures Good(r)
  {
    var s, moves :| Initial(s) && GuardsLead(s, moves, r);
    assert Holders(s.guards) == {} && Readers(s.guards) == {};
    LeadsGood(s, moves, r);
  }

  lemma AtMostOne(s: set<nat>)
    requires forall g, h :: g in s && h in s ==> g == h
    ensures |s| <= 1
  {
    if g :| g in s { assert s == {g}; }
  }

  /** A mutex or `CASLock`: in every interleaving at most one guard is between its acquire and its
      release, and the flag is up exactly then. */
  lemma MutualExclusion(s: System)
    requires GuardsReach(s) && s.lock.Flag?
    ensures |Holders(s.guards)| <= 1
    ensures s.lock.up <==> |Holders(s.guards)| == 1
  {
    ReachableGood(s);
    AtMostOne(Holders(s.guards));
  }

  /** A read/write lock: many readers or one writer, though both release through the same call; the
      lock counts its readers right, and nobody ever unlocks a lock that is not held. */
  lemma ReadersOrWriter(s: System)
    requires GuardsReach(s) && s.lock.ReadersWriter?
    ensures s.lock.readers == |Readers(s.guards)|
    ensures s.lock.writer <==> Holders(s.guards) != Readers(s.guards)
    ensures s.lock.writer ==> Readers(s.guards) == {} && |Holders(s.guards)| == 1
    ensures !s.broken
  {
    ReachableGood(s);
    if s.lock.writer {
      var g :| g in Holders(s.guards) && g !in Readers(s.guards);
      assert Holders(s.guards) == {g};
    }
  }

  /** The lock passes from hand to hand: a step changes who holds only for the guard that makes it;
      only a holder gives up, and the flag goes down only by the hand of the one that put it up. */
  lemma OnlyTheHolderReleases(s: System, m: Move)
    requires GuardsReach(s) && Enabled(s, m)
    ensures forall g :: g != m.g ==> (g in Holders(s.guards) <==> g in Holders(Next(s, m).guards))
    ensures s.lock.Flag? && s.lock.up && !Next(s, m).lock.up ==> Holders(s.guards) == {m.g}
    ensures s.lock.Flag? && !s.lock.up && Next(s, m).lock.up ==> Holders(Next(s, m).guards) == {m.g}
  {
    ReachableGood(s);
    if m.Go? && s.guards[m.g].pc.Releasing? {
      assert m.g in Holders(s.guards);
    }
    NextGood(s, m);
    if s.lock.Flag? && !s.lock.up && Next(s, m).lock.up {
      assert m.g in Holders(Next(s, m).guards);
    }
  }

  /** Once every guard is gone the lock is free, as it was at the beginning. */
  lemma AllGone(s: System)
    requires GuardsReach(s) && forall g :: 0 <= g < |s.guards| ==> s.guards[g].pc in {Unborn, Dead}
    ensures Unheld(s.lock)
  {
    ReachableGood(s);
    assert Holders(s.guards) == {} && Readers(s.guards) == {};
  }

  /** Nobody is shut out of a lock that is not held, and a held lock always has a holder that can go
      on by itself: at its next step, or with its next operation. */
  lemma NoLockout(s: System, g: nat)
    requires GuardsReach(s) && g < |s.guards| && s.guards[g].pc == Acquiring
    ensures Free(s.lock, s.guards[g].kind)
       <==> forall h :: h in Holders(s.guards) ==> s.guards[g].kind.Reading? && s.guards[h].kind.Reading?
    ensures Free(s.lock, s.guards[g].kind) ==> g in Holders(Next(s, Go(g)).guards)
    ensures forall h :: h in Holders(s.guards) ==> Enabled(s, Go(h)) || Enabled(s, CallUnlock(h))
  {
    ReachableGood(s);
    if forall h :: h in Holders(s.guards) ==> s.guards[g].kind.Reading? && s.guards[h].kind.Reading? {
      assert Holders(s.guards) == Readers(s.guards);
    }
    if Free(s.lock, s.guards[g].kind) {
      assert Holders(s.guards) == Readers(s.guards) || s.lock.Flag?;
      if !s.guards[g].kind.Reading? && s.lock.ReadersWriter? { assert Readers(s.guards) == {}; }
    }
  }

  // ----- what an owner may rely on when a call has returned

  /** The last call on guard `g`, if `before` was the last one before these moves. */
  function LastCall(moves: seq<Move>, g: nat, before: Option<Move>): Option<Move>
    decreases |moves|
  {
    if moves == [] then before
    else LastCall(moves[1..], g, Latest(moves[0], g, before))
  }

  function Latest(m: Move, g: nat, before: Option<Move>): Option<Move> {
    if m.g == g && !m.Go? then Some(m) else before
  }

  /** Where a guard can be whose owner made this call last; between two calls it is locked exactly if the
      call was to lock it. */
  ghost predicate Follows(x: GuardState, last: Option<Move>) {
    match last
    case None => x.pc == Unborn
    case Some(Construct(_, _)) => x.pc.Acquiring? || x.pc.Acquired? || (x.pc.Between? && x.locked)
    case Some(CallLock(_)) => x.pc.Acquiring? || x.pc.Acquired? || (x.pc.Between? && x.locked)
    case Some(CallUnlock(_)) => x.pc == Releasing(false) || x.pc == Released(false) || (x.pc.Between? && !x.locked)
    case Some(Destroy(_)) => x.pc == Releasing(true) || x.pc == Released(true) || x.pc.Dead?
    case Some(Go(_)) => false
  }

  lemma {:induction false} CallsFollowed(s: System, moves: seq<Move>, r: System, g: nat, before: Option<Move>)
    requires GuardsLead(s, moves, r) && g < |s.guards| && Follows(s.guards[g], before)
    ensures |r.guards| == |s.guards| && r.guards[g].kind == s.guards[g].kind
    ensures Follows(r.guards[g], LastCall(moves, g, before))
    decreases |moves|
  {
    if moves != [] {
      CallsFollowed(Next(s, moves[0]), moves[1..], r, g, Latest(moves[0], g, before));
    }
  }

  /** A constructor or a `lock()` has returned only if the guard holds its lock, and an `unlock()` only if
      it does not; a guard is gone exactly if its destructor has run. */
  lemma CallsKept(s: System, moves: seq<Move>, r: System, g: nat)
    requires Initial(s) && GuardsLead(s, moves, r) && g < |s.guards|
    ensures |r.guards| == |s.guards| && r.guards[g].kind == s.guards[g].kind
    ensures var last := LastCall(moves, g, None);
      && (r.guards[g].pc == Unborn <==> last == None)
      && (r.guards[g].pc == Dead ==> last == Some(Destroy(g)))
      && (r.guards[g].pc == Between ==>
            last.Some? && !last.value.Destroy? && (g in Holders(r.guards) <==> !last.value.CallUnlock?))
  {
    CallsFollowed(s, moves, r, g, None);
    LastCallOf(moves, g, None);
  }

  lemma {:induction false} LastCallOf(moves: seq<Move>, g: nat, before: Option<Move>)
    requires before.Some? ==> before.value.g == g && !before.value.Go?
    ensures var last := LastCall(moves, g, before); last.Some? ==> last.value.g == g && !last.value.Go?
    decreases |moves|
  {
    if moves != [] { LastCallOf(moves[1..], g, Latest(moves[0], g, before)); }
  }

  /** The owner is past the call that locked the guard and has not called again. */
  predicate InSection(r: System, moves: seq<Move>, g: nat) {
    && g < |r.guards| && r.guards[g].pc == Between
    && var last := LastCall(moves, g, None); last.Some? && (last.value.Construct? || last.value.CallLock?)
  }

  /** So no two owners are in their critical sections at once, unless both are readers; and the lock is
      taken as long as one is. */
  lemma SectionsExclude(s: System, moves: seq<Move>, r: System, g: nat, h: nat)
    requires Initial(s) && GuardsLead(s, moves, r)
    requires InSection(r, moves, g) && InSection(r, moves, h)
    ensures g == h || (r.guards[g].kind.Reading? && r.guards[h].kind.Reading?)
    ensures !Unheld(r.lock)
  {
    GuardCount(s, moves, r);
    CallsKept(s, moves, r, g);
    CallsKept(s, moves, r, h);
    ReachableGood(r);
    assert g in Holders(r.guards);
    if r.guards[g].kind.Reading? { assert g in Readers(r.guards); }
  }

  lemma {:induction false} GuardCount(s: System, moves: seq<Move>, r: System)
    requires GuardsLead(s, moves, r)
    ensures |r.guards| == |s.guards|
    decreases |moves|
  {
    if moves != [] { GuardCount(Next(s, moves[0]), moves[1..], r); }
  }
}
