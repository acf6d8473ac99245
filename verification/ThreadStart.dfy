/** Starting threads: the handshake between a `Thread` constructor and the thread it starts, in the
    shape in which the scheduler uses it, one parent that starts several threads while it holds a
    mutex that their callbacks need.  And the pthread handle of one `Thread` object. */
module ThreadStart {
  import opened Wrappers

  /** Whose callback a `std::function` holds: that of thread `k`. */
  type Callback = Option<nat>

  /** A `Thread` object.  `sem` is the count of its semaphore; `gone` once it has been destroyed. */
  datatype Object = Object(id: int, name: int, cb: Callback, sem: nat, gone: bool)

  /** What a callback does: take the parent's mutex and give it back, or use its thread's object through
      `GetThis`, to look at it or to give it a name. */
  datatype Use = Lock | Look | Rename(name: int)

  /** Program points of `Thread::run`.  `InCallback`, `Inside` and `Faulted` carry what the callback has still
      to do, `Inside` with the mutex in hand. */
  datatype Pc = Unstarted | Setup | Swap(cb: Callback) | Notify(cb: Callback) | Enter(cb: Callback)
    | InCallback(todo: seq<Use>) | Inside(todo: seq<Use>) | Finished | Faulted(todo: seq<Use>)

  /** `tid` is the number the system gave the thread; `called` counts entries into its callback. */
  datatype Child = Child(tid: int, pc: Pc, obj: Object, called: nat)

  /** The parent takes the mutex, and for each thread in turn creates it, waits for its semaphore and
      notes its id; then it gives the mutex back. */
  datatype Parent = Locking | Creating(k: nat) | Waiting(k: nat) | Noting(k: nat) | Unlocking | Free

  datatype Owner = Nobody | TheParent | TheChild(k: nat)

  /** `ids` is what the parent has noted; `cbs` what each callback does. */
  datatype System = System(parent: Parent, children: seq<Child>, mutex: Owner, ids: seq<int>, cbs: seq<seq<Use>>)

  /** A step of the parent or of a thread, `pthread_create` refusing a thread, or the destruction of
      an object by the parent, which owns it. */
  datatype Move = OfParent | OfChild(k: nat) | CreateFails | Destroy(k: nat)

  const NO_ID := -1

  /** The constructor of thread `k` has returned. */
  predicate Constructed(s: System, k: nat) {
    k < |s.ids| || s.parent == Noting(k)
  }

  predicate Enabled(s: System, m: Move) {
    match m
    case OfParent =>
      (match s.parent
       case Locking => s.mutex == Nobody
       case Waiting(k) => k < |s.children| && s.children[k].obj.sem > 0
       case Free => false
       case _ => true)
    case OfChild(k) =>
      k < |s.children| &&
      (match s.children[k].pc
       case Unstarted => false
       case InCallback(todo) => todo != [] && todo[0].Lock? ==> s.mutex == Nobody
       case Finished => false
       case Faulted(_) => false
       case _ => true)
    case CreateFails => s.parent.Creating? && s.parent.k < |s.children|
    case Destroy(k) => k < |s.children| && k < |s.ids| && !s.children[k].obj.gone
  }

  function SetChild(s: System, k: nat, c: Child): System
    requires k < |s.children|
  {
    s.(children := s.children[k := c])
  }

  function ParentStep(s: System): System
    requires Enabled(s, OfParent)
  {
    match s.parent
    case Locking => s.(parent := Creating(0), mutex := TheParent)
    case Creating(k) =>
      if k < |s.children| then SetChild(s, k, s.children[k].(pc := Setup)).(parent := Waiting(k))
      else s.(parent := Unlocking)
    case Waiting(k) =>
      var c := s.children[k];
      SetChild(s, k, c.(obj := c.obj.(sem := c.obj.sem - 1))).(parent := Noting(k))
    case Noting(k) =>
      s.(parent := Creating(k + 1), ids := s.ids + [if k < |s.children| then s.children[k].obj.id else NO_ID])
    case Unlocking => s.(parent := Free, mutex := Nobody)
    case Free => s
  }

  /** A thread that uses its object after the owner has destroyed it, or calls an empty callback,
      faults. */
  function ChildStep(s: System, k: nat): System
    requires Enabled(s, OfChild(k))
  {
    var c := s.children[k];
    match c.pc
    case Setup =>
      SetChild(s, k, if c.obj.gone then c.(pc := Faulted([])) else c.(pc := Swap(None), obj := c.obj.(id := c.tid)))
    case Swap(cb) =>
      SetChild(s, k, if c.obj.gone then c.(pc := Faulted([])) else c.(pc := Notify(c.obj.cb), obj := c.obj.(cb := cb)))
    case Notify(cb) =>
      SetChild(s, k, if c.obj.gone then c.(pc := Faulted([])) else c.(pc := Enter(cb), obj := c.obj.(sem := c.obj.sem + 1)))
    case Enter(cb) =>
      SetChild(s, k, if cb.Some? && cb.value < |s.cbs| then c.(pc := InCallback(s.cbs[cb.value]), called := c.called + 1)
                     else c.(pc := Faulted([])))
    case InCallback(todo) =>
      if todo == [] then SetChild(s, k, c.(pc := Finished))
      else if todo[0].Lock? then SetChild(s, k, c.(pc := Inside(todo[1..]))).(mutex := TheChild(k))
      else if c.obj.gone then SetChild(s, k, c.(pc := Faulted(todo)))
      else
        var name := if todo[0].Rename? then todo[0].name else c.obj.name;
        SetChild(s, k, c.(pc := InCallback(todo[1..]), obj := c.obj.(name := name)))
    case Inside(todo) => SetChild(s, k, c.(pc := InCallback(todo))).(mutex := Nobody)
    case _ => s
  }

  function Next(s: System, m: Move): System
    requires Enabled(s, m)
  {
    match m
    case OfParent => ParentStep(s)
    case OfChild(k) => ChildStep(s, k)
    // The constructor throws, and on the way out the guard gives the mutex back.
    case CreateFails => s.(parent := Unlocking)
    case Destroy(k) => SetChild(s, k, s.children[k].(obj := s.children[k].obj.(gone := true)))
  }

  predicate Initial(s: System) {
    && s.parent == Locking && s.mutex == Nobody && s.ids == [] && |s.cbs| == |s.children|
    && forall k :: 0 <= k < |s.children| ==>
         s.children[k] == Child(s.children[k].tid, Unstarted,
                              Object(NO_ID, s.children[k].obj.name, Some(k), 0, false), 0)
  }

  ghost predicate StartLeads(s: System, moves: seq<Move>, r: System)
    decreases |moves|
  {
    if moves == [] then r == s
    else Enabled(s, moves[0]) && StartLeads(Next(s, moves[0]), moves[1..], r)
  }

  ghost predicate StartReaches(r: System) {
    exists s, moves :: Initial(s) && StartLeads(s, moves, r)
  }

  // ----- what every step keeps

  predicate PastNotify(pc: Pc) { pc.Enter? || PastEnter(pc) }

  predicate PastEnter(pc: Pc) { pc.InCallback? || pc.Inside? || pc.Finished? || pc.Faulted? }

  /** What the callback has still to do. */
  function Todo(pc: Pc, cb: seq<Use>): seq<Use> {
    match pc
    case InCallback(todo) => todo
    case Inside(todo) => todo
    case Finished => []
    case Faulted(todo) => todo
    case _ => cb
  }

  predicate Touches(todo: seq<Use>) {
    exists i :: 0 <= i < |todo| && !todo[i].Lock?
  }

  /** Thread `k`, by whether the parent has created it and whether it has seen the notification. */
  ghost predicate ChildOk(k: nat, c: Child, created: bool, seen: bool) {
    && (c.pc.Unstarted? <==> !created)
    && (seen ==> PastNotify(c.pc))
    && (c.obj.gone ==> seen)
    && c.obj.id == (if c.pc.Unstarted? || c.pc.Setup? then NO_ID else c.tid)
    && c.obj.cb == (if c.pc.Unstarted? || c.pc.Setup? || c.pc.Swap? then Some(k) else None)
    && c.obj.sem == (if PastNotify(c.pc) && !seen then 1 else 0)
    && c.called == (if PastEnter(c.pc) then 1 else 0)
    && (c.pc.Swap? ==> c.pc.cb == None)
    && (c.pc.Notify? || c.pc.Enter? ==> c.pc.cb == Some(k))
    && (c.pc.Faulted? ==> c.obj.gone)
  }

  predicate Created(s: System, k: nat) {
    k < |s.ids| || s.parent == Waiting(k) || s.parent == Noting(k)
  }

  ghost predicate ParentOk(s: System) {
    match s.parent
    case Locking => s.ids == []
    case Creating(k) => k == |s.ids| <= |s.children|
    case Waiting(k) => k == |s.ids| < |s.children|
    case Noting(k) => k == |s.ids| < |s.children|
    case Unlocking => |s.ids| <= |s.children|
    case Free => |s.ids| <= |s.children|
  }

  ghost predicate MutexOk(s: System) {
    && (s.mutex == TheParent <==> s.parent != Locking && s.parent != Free)
    && (forall k :: 0 <= k < |s.children| ==> (s.mutex == TheChild(k) <==> s.children[k].pc.Inside?))
    && (s.mutex.TheChild? ==> s.mutex.k < |s.children|)
  }

  ghost predicate Good(s: System) {
    && |s.cbs| == |s.children| && ParentOk(s) && MutexOk(s)
    && (forall k :: 0 <= k < |s.children| ==> ChildOk(k, s.children[k], Created(s, k), Constructed(s, k)))
    && (forall k :: 0 <= k < |s.ids| ==> k < |s.children| && s.ids[k] == s.children[k].tid)
  }

  lemma ParentStepGood(s: System)
    requires Good(s) && Enabled(s, OfParent)
    ensures Good(ParentStep(s))
  {
    var r := ParentStep(s);
    forall k | 0 <= k < |r.children| ensures ChildOk(k, r.children[k], Created(r, k), Constructed(r, k)) {
      assert ChildOk(k, s.children[k], Created(s, k), Constructed(s, k));
    }
    forall k | 0 <= k < |r.ids| ensures k < |r.children| && r.ids[k] == r.children[k].tid {
      if k < |s.children| { assert ChildOk(k, s.children[k], Created(s, k), Constructed(s, k)); }
    }
  }

  lemma ChildStepOk(s: System, k: nat)
    requires Enabled(s, OfChild(k)) && ChildOk(k, s.children[k], Created(s, k), Constructed(s, k)) && |s.cbs| == |s.children|
    ensures var r := ChildStep(s, k);
      && |r.children| == |s.children| && r.children == s.children[k := r.children[k]]
      && r.parent == s.parent && r.ids == s.ids && r.cbs == s.cbs && r.children[k].tid == s.children[k].tid
      && ChildOk(k, r.children[k], Created(s, k), Constructed(s, k))
  {
  }

  lemma ChildStepMutex(s: System, k: nat)
    requires Enabled(s, OfChild(k)) && MutexOk(s)
    ensures MutexOk(ChildStep(s, k))
  {
    var r := ChildStep(s, k);
    assert forall j :: 0 <= j < |s.children| && j != k ==> r.children[j] == s.children[j];
  }

  lemma ChildStepGood(s: System, k: nat)
    requires Good(s) && Enabled(s, OfChild(k))
    ensures Good(ChildStep(s, k))
  {
    hide ChildStep, ChildOk, MutexOk;
    ChildStepOk(s, k);
    ChildStepMutex(s, k);
    var r := ChildStep(s, k);
    assert forall j: nat :: Created(r, j) == Created(s, j) && Constructed(r, j) == Constructed(s, j);
  }

  lemma NextGood(s: System, m: Move)
    requires Good(s) && Enabled(s, m)
    ensures Good(Next(s, m))
  {
    match m
    case OfParent => ParentStepGood(s);
    case OfChild(k) => ChildStepGood(s, k);
    case CreateFails =>
    case Destroy(k) => assert ChildOk(k, s.children[k], Created(s, k), Constructed(s, k));
  }

  lemma {:induction false} LeadsGood(s: System, moves: seq<Move>, r: System)
    requires Good(s) && StartLeads(s, moves, r)
    ensures Good(r)
    decreases |moves|
  {
    if moves != [] {
      NextGood(s, moves[0]);
      LeadsGood(Next(s, moves[0]), moves[1..], r);
    }
  }

  lemma ReachableGood(r: System)
    requires StartReaches(r)
    ensures Good(r)
  {
    var s, moves :| Initial(s) && StartLeads(s, moves, r);
    LeadsGood(s, moves, r);
  }

  // ----- the laws

  /** When a constructor returns, the thread's id is set and its callback has been moved out; and the
      ids the parent collects are the threads' own. */
  lemma Handshake(s: System, k: nat)
    requires StartReaches(s) && k < |s.children|
    ensures Constructed(s, k) ==>
      s.children[k].obj.id == s.children[k].tid && s.children[k].obj.cb == None && s.children[k].obj.sem == 0
    ensures k < |s.ids| ==> s.ids[k] == s.children[k].tid
  {
    ReachableGood(s);
    assert ChildOk(k, s.children[k], Created(s, k), Constructed(s, k));
  }

  /** Every callback is entered at most once, and exactly once by a thread that finishes; no thread
      calls an empty callback, and the only fault there can be is that a callback uses its thread's
      object after the owner has destroyed it. */
  lemma CalledOnce(s: System, k: nat)
    requires StartReaches(s) && k < |s.children|
    ensures s.children[k].called <= 1
    ensures s.children[k].pc.Finished? ==> s.children[k].called == 1
    ensures s.children[k].called + (if s.children[k].obj.cb.Some? then 1 else 0) <= 1
    ensures s.children[k].pc.Faulted? ==> s.children[k].obj.gone && s.children[k].called == 1
  {
    ReachableGood(s);
    assert ChildOk(k, s.children[k], Created(s, k), Constructed(s, k));
  }

  function WithObject(s: System, k: nat, o: Object): System
    requires k < |s.children|
  {
    SetChild(s, k, s.children[k].(obj := o))
  }

  /** The next step of the thread is its callback's use of the object. */
  predicate UsesNow(pc: Pc) {
    pc.InCallback? && pc.todo != [] && !pc.todo[0].Lock?
  }

  /** After its notification a thread leaves id, callback and semaphore of its object alone for good, and
      but for its callback's own uses it neither looks at the object nor changes it. */
  lemma ObjectForgotten(s: System, k: nat, o: Object)
    requires k < |s.children| && PastNotify(s.children[k].pc) && Enabled(s, OfChild(k))
    ensures k < |ChildStep(s, k).children|
    ensures ChildStep(s, k).children[k].obj == s.children[k].obj.(name := ChildStep(s, k).children[k].obj.name)
    ensures !UsesNow(s.children[k].pc) ==>
      && Enabled(WithObject(s, k, o), OfChild(k))
      && ChildStep(s, k).children[k].obj == s.children[k].obj
      && ChildStep(WithObject(s, k, o), k) == WithObject(ChildStep(s, k), k, o)
  {
    var b := WithObject(s, k, o);
    assert b.children[k].pc == s.children[k].pc;
    assert !UsesNow(s.children[k].pc) ==> ChildStep(b, k).children == WithObject(ChildStep(s, k), k, o).children;
  }

  /** Whether the callback of thread `k` will use its object again. */
  predicate UsesLeft(s: System, k: nat)
    requires k < |s.children| && k < |s.cbs|
  {
    Touches(Todo(s.children[k].pc, s.cbs[k]))
  }

  /** How thread `k` stands after its object has been destroyed, too early or not. */
  ghost predicate Doomed(s: System, k: nat, early: bool) {
    && k < |s.children| && k < |s.cbs| && s.children[k].obj.gone
    && if early then s.children[k].pc.Faulted? || UsesLeft(s, k) else !s.children[k].pc.Faulted? && !UsesLeft(s, k)
  }

  lemma ChildDoomed(s: System, k: nat, early: bool)
    requires Good(s) && Doomed(s, k, early) && Enabled(s, OfChild(k))
    ensures Doomed(ChildStep(s, k), k, early)
  {
    var c := s.children[k];
    assert ChildOk(k, c, Created(s, k), Constructed(s, k));
    if c.pc.InCallback? && c.pc.todo != [] {
      var todo := c.pc.todo;
      assert !todo[0].Lock? ==> Touches(todo);
      if Touches(todo) && todo[0].Lock? {
        var i :| 0 <= i < |todo| && !todo[i].Lock?;
        assert todo[1..][i - 1] == todo[i];
      }
      if Touches(todo[1..]) {
        var i :| 0 <= i < |todo| - 1 && !todo[1..][i].Lock?;
        assert todo[i + 1] == todo[1..][i];
      }
    }
  }

  lemma NextDoomed(s: System, m: Move, k: nat, early: bool)
    requires Good(s) && Doomed(s, k, early) && Enabled(s, m)
    ensures Doomed(Next(s, m), k, early)
  {
    assert ChildOk(k, s.children[k], Created(s, k), Constructed(s, k));
    if m == OfChild(k) { ChildDoomed(s, k, early); }
  }

  lemma {:induction false} LeadsDoomed(s: System, moves: seq<Move>, r: System, k: nat, early: bool)
    requires Good(s) && Doomed(s, k, early) && StartLeads(s, moves, r)
    ensures Doomed(r, k, early)
    decreases |moves|
  {
    if moves != [] {
      NextGood(s, moves[0]);
      NextDoomed(s, moves[0], k, early);
      LeadsDoomed(Next(s, moves[0]), moves[1..], r, k, early);
    }
  }

  /** The owner may destroy a thread's object while the thread runs.  Whatever happens afterwards, the
      thread comes to its end without a fault if and only if its callback was not going to use the object
      any more. */
  lemma FaultsExactly(s: System, k: nat, moves: seq<Move>, r: System)
    requires StartReaches(s) && Enabled(s, Destroy(k)) && StartLeads(Next(s, Destroy(k)), moves, r)
    requires k < |r.children| && (r.children[k].pc.Finished? || r.children[k].pc.Faulted?)
    ensures k < |s.cbs| && (r.children[k].pc.Finished? <==> !UsesLeft(s, k))
  {
    ReachableGood(s);
    NextGood(s, Destroy(k));
    assert ChildOk(k, s.children[k], Created(s, k), Constructed(s, k));
    LeadsDoomed(Next(s, Destroy(k)), moves, r, k, UsesLeft(s, k));
  }

  // ----- what the callbacks get done, and the mutex they need for it

  /** What the callback of thread `k` has still to do. */
  function Left(s: System, k: nat): seq<Use>
    requires k < |s.children| && k < |s.cbs|
  {
    Todo(s.children[k].pc, s.cbs[k])
  }

  function LocksIn(uses: seq<Use>): nat {
    if uses == [] then 0 else (if uses[0].Lock? then 1 else 0) + LocksIn(uses[1..])
  }

  /** The name an object of this name has after these uses. */
  function NameAfter(uses: seq<Use>, name: int): int {
    if uses == [] then name else NameAfter(uses[1..], if uses[0].Rename? then uses[0].name else name)
  }

  /** How often the mutex passes to thread `k` in a run, as an observer of the mutex counts it. */
  ghost function Takes(s: System, moves: seq<Move>, k: nat): nat
    decreases |moves|
  {
    if moves == [] || !Enabled(s, moves[0]) then 0
    else
      var q := Next(s, moves[0]);
      (if s.mutex != TheChild(k) && q.mutex == TheChild(k) then 1 else 0) + Takes(q, moves[1..], k)
  }

  /** A step of thread `k`. */
  lemma ChildUses(s: System, k: nat)
    requires Good(s) && Enabled(s, OfChild(k))
    ensures var r := ChildStep(s, k);
      && |r.cbs| == |s.cbs| == |r.children| == |s.children|
      && LocksIn(Left(s, k)) == LocksIn(Left(r, k)) + (if s.mutex != TheChild(k) && r.mutex == TheChild(k) then 1 else 0)
      && NameAfter(Left(s, k), s.children[k].obj.name) == NameAfter(Left(r, k), r.children[k].obj.name)
  {
    assert ChildOk(k, s.children[k], Created(s, k), Constructed(s, k));
  }

  lemma StepUses(s: System, m: Move, k: nat)
    requires Good(s) && Enabled(s, m) && k < |s.children|
    ensures var r := Next(s, m);
      && |r.cbs| == |s.cbs| == |r.children| == |s.children|
      && LocksIn(Left(s, k)) == LocksIn(Left(r, k)) + (if s.mutex != TheChild(k) && r.mutex == TheChild(k) then 1 else 0)
      && NameAfter(Left(s, k), s.children[k].obj.name) == NameAfter(Left(r, k), r.children[k].obj.name)
  {
    if m == OfChild(k) {
      ChildUses(s, k);
    } else {
      hide LocksIn, NameAfter, ChildOk;
      OtherMoves(s, m, k);
    }
  }

  lemma OtherMoves(s: System, m: Move, k: nat)
    requires Good(s) && Enabled(s, m) && k < |s.children| && m != OfChild(k)
    ensures var r := Next(s, m);
      && |r.children| == |s.children| && r.cbs == s.cbs && (r.mutex == TheChild(k) ==> s.mutex == TheChild(k))
      && Left(r, k) == Left(s, k) && r.children[k].obj.name == s.children[k].obj.name
  {
    assert ChildOk(k, s.children[k], Created(s, k), Constructed(s, k));
  }

  lemma {:induction false} RunUses(s: System, moves: seq<Move>, r: System, k: nat)
    requires Good(s) && StartLeads(s, moves, r) && k < |s.children| == |s.cbs|
    ensures |r.cbs| == |s.cbs| == |r.children| == |s.children|
    ensures LocksIn(Left(s, k)) == Takes(s, moves, k) + LocksIn(Left(r, k))
    ensures NameAfter(Left(s, k), s.children[k].obj.name) == NameAfter(Left(r, k), r.children[k].obj.name)
    decreases |moves|
  {
    hide Good, Next, Left, LocksIn, NameAfter, Enabled;
    if moves != [] {
      StepUses(s, moves[0], k);
      NextGood(s, moves[0]);
      RunUses(Next(s, moves[0]), moves[1..], r, k);
    }
  }

  /** Thread `k` has been given the mutex exactly as often as its callback has got past a use of it, and
      has it exactly while it is inside one; and when it finishes, the object bears the last name that the
      callback gave it. */
  lemma LocksAreTaken(s: System, moves: seq<Move>, r: System, k: nat)
    requires Initial(s) && StartLeads(s, moves, r) && k < |s.children|
    ensures |r.cbs| == |s.cbs| == |r.children| == |s.children|
    ensures Takes(s, moves, k) == LocksIn(s.cbs[k]) - LocksIn(Left(r, k))
    ensures r.mutex == TheChild(k) <==> r.children[k].pc.Inside?
    ensures r.children[k].pc.Finished? ==>
      Takes(s, moves, k) == LocksIn(s.cbs[k]) && r.children[k].obj.name == NameAfter(s.cbs[k], s.children[k].obj.name)
  {
    assert Good(s);
    RunUses(s, moves, r, k);
    LeadsGood(s, moves, r);
  }

  /** The parent has the mutex from its first step until it gives it back, over all creations and waits, and a
      thread exactly while its callback is inside a use of it. */
  lemma WhoHasTheMutex(s: System)
    requires StartReaches(s)
    ensures s.mutex == TheParent <==> s.parent != Locking && s.parent != Free
    ensures forall k :: 0 <= k < |s.children| ==> (s.mutex == TheChild(k) <==> s.children[k].pc.Inside?)
    ensures s.mutex.TheChild? ==> s.mutex.k < |s.children|
  {
    ReachableGood(s);
  }

  /** While somebody else has the mutex no step gets thread `k` past its next use of it. */
  lemma LockWaits(s: System, m: Move, k: nat)
    requires StartReaches(s) && Enabled(s, m) && k < |s.children| && s.mutex != Nobody && s.mutex != TheChild(k)
    ensures |s.cbs| == |s.children| && |Next(s, m).cbs| == |Next(s, m).children| == |s.children|
    ensures LocksIn(Left(Next(s, m), k)) == LocksIn(Left(s, k)) && Next(s, m).mutex != TheChild(k)
  {
    ReachableGood(s);
    StepUses(s, m, k);
    if m != OfChild(k) { OtherMoves(s, m, k); }
  }

  lemma {:induction false} CreatesAll(s: System, moves: seq<Move>, r: System)
    requires Good(s) && StartLeads(s, moves, r)
    requires s.parent.Unlocking? || s.parent.Free? ==> |s.ids| == |s.children|
    ensures |r.children| == |s.children|
    ensures CreateFails !in moves && (r.parent.Unlocking? || r.parent.Free?) ==> |r.ids| == |r.children|
    decreases |moves|
  {
    if moves != [] {
      NextGood(s, moves[0]);
      ChildCount(s, moves[0]);
      if moves[0] != CreateFails {
        CreatesAll(Next(s, moves[0]), moves[1..], r);
      } else {
        ChildrenCount(Next(s, moves[0]), moves[1..], r);
      }
    }
  }

  lemma ChildCount(s: System, m: Move)
    requires Enabled(s, m)
    ensures |Next(s, m).children| == |s.children|
  {
  }

  lemma {:induction false} ChildrenCount(s: System, moves: seq<Move>, r: System)
    requires StartLeads(s, moves, r)
    ensures |r.children| == |s.children|
    decreases |moves|
  {
    if moves != [] {
      ChildCount(s, moves[0]);
      ChildrenCount(Next(s, moves[0]), moves[1..], r);
    }
  }

  /** A parent that is through has started all its threads and noted an id for each, if and only if the
      system refused none. */
  lemma StartsAll(s: System, moves: seq<Move>, r: System)
    requires Initial(s) && StartLeads(s, moves, r) && (r.parent.Unlocking? || r.parent.Free?)
    ensures |r.children| == |s.children|
    ensures |r.ids| == |r.children| <==> CreateFails !in moves
  {
    assert Good(s);
    CreatesAll(s, moves, r);
    if CreateFails in moves { RefusedStays(s, moves, r); }
  }

  lemma {:induction false} RefusedStays(s: System, moves: seq<Move>, r: System)
    requires Good(s) && StartLeads(s, moves, r) && (CreateFails in moves || ((s.parent.Unlocking? || s.parent.Free?) && |s.ids| < |s.children|))
    ensures |r.ids| < |r.children|
    decreases |moves|
  {
    if moves != [] {
      NextGood(s, moves[0]);
      ChildCount(s, moves[0]);
      assert moves[0] != CreateFails ==> (CreateFails in moves ==> CreateFails in moves[1..]);
      RefusedStays(Next(s, moves[0]), moves[1..], r);
    }
  }

  /** Everything the parent set out to do is done, and every thread it created has ended. */
  predicate Settled(s: System) {
    s.parent == Free && forall k :: 0 <= k < |s.children| ==>
      if k < |s.ids| then s.children[k].pc.Finished? || s.children[k].pc.Faulted? else s.children[k].pc.Unstarted?
  }

  predicate CanGo(s: System) {
    Enabled(s, OfParent) || exists k :: 0 <= k < |s.children| && Enabled(s, OfChild(k))
  }

  /** Nobody waits for ever: although the parent waits for each thread with the mutex in its hand, and
      the thread's callback wants that mutex, somebody can always go on until all is done. */
  lemma NoDeadlock(s: System)
    requires StartReaches(s)
    ensures CanGo(s) <==> !Settled(s)
  {
    ReachableGood(s);
    if s.parent.Waiting? {
      WaitingGoes(s, s.parent.k);
    } else if !CanGo(s) {
      FreeStuck(s);
    }
    if Settled(s) {
      forall k | 0 <= k < |s.children| ensures !Enabled(s, OfChild(k)) {
        assert s.children[k].pc.Finished? || s.children[k].pc.Faulted? || s.children[k].pc.Unstarted?;
      }
    }
  }

  /** The thread the parent waits for has given its signal, or can go on towards it without the mutex. */
  lemma WaitingGoes(s: System, k: nat)
    requires Good(s) && s.parent == Waiting(k)
    ensures CanGo(s)
  {
    assert ChildOk(k, s.children[k], Created(s, k), Constructed(s, k));
    assert Enabled(s, OfParent) || Enabled(s, OfChild(k));
  }

  lemma FreeStuck(s: System)
    requires Good(s) && !CanGo(s) && !s.parent.Waiting?
    ensures Settled(s)
  {
    assert s.mutex.TheChild? ==> Enabled(s, OfChild(s.mutex.k));
    assert s.parent == Free;
    forall k | 0 <= k < |s.children|
      ensures if k < |s.ids| then s.children[k].pc.Finished? || s.children[k].pc.Faulted? else s.children[k].pc.Unstarted?
    {
      assert ChildOk(k, s.children[k], Created(s, k), Constructed(s, k));
      assert !Enabled(s, OfChild(k));
    }
  }

  // ----- and it ends

  function ParentRank(s: System): nat {
    var n := |s.children|;
    match s.parent
    case Locking => 3 * n + 3
    case Creating(k) => if k <= n then 3 * (n - k) + 2 else 2
    case Waiting(k) => if k <= n then 3 * (n - k) + 1 else 1
    case Noting(k) => if k <= n then 3 * (n - k) else 0
    case Unlocking => 1
    case Free => 0
  }

  function ChildRank(c: Child, cb: seq<Use>): nat {
    (if c.obj.gone then 0 else 1) +
    match c.pc
    case Unstarted => 2 * |cb| + 5
    case Setup => 2 * |cb| + 5
    case Swap(_) => 2 * |cb| + 4
    case Notify(_) => 2 * |cb| + 3
    case Enter(_) => 2 * |cb| + 2
    case InCallback(todo) => 2 * |todo| + 1
    case Inside(todo) => 2 * |todo| + 2
    case Finished => 0
    case Faulted(_) => 0
  }

  function ChildRanks(children: seq<Child>, cbs: seq<seq<Use>>): nat
    requires |children| == |cbs|
  {
    if children == [] then 0
    else
      var n := |children| - 1;
      ChildRanks(children[..n], cbs[..n]) + ChildRank(children[n], cbs[n])
  }

  lemma {:induction false} ChildRanksUpdate(children: seq<Child>, cbs: seq<seq<Use>>, k: nat, c: Child)
    requires |children| == |cbs| && k < |children|
    ensures ChildRanks(children[k := c], cbs)
         == ChildRanks(children, cbs) - ChildRank(children[k], cbs[k]) + ChildRank(c, cbs[k])
  {
    var n := |children| - 1;
    if k == n {
      assert children[k := c][..n] == children[..n];
    } else {
      ChildRanksUpdate(children[..n], cbs[..n], k, c);
      assert children[k := c][..n] == children[..n][k := c];
    }
  }

  function Rank(s: System): nat
    requires |s.children| == |s.cbs|
  {
    ParentRank(s) + ChildRanks(s.children, s.cbs)
  }

  lemma OneChild(s: System, r: System, k: nat)
    requires |s.children| == |s.cbs| && k < |s.children| && |r.children| == |s.children|
    requires r.children == s.children[k := r.children[k]] && r.cbs == s.cbs
    ensures Rank(r) == Rank(s) + ParentRank(r) - ParentRank(s)
                       + ChildRank(r.children[k], s.cbs[k]) - ChildRank(s.children[k], s.cbs[k])
  {
    ChildRanksUpdate(s.children, s.cbs, k, r.children[k]);
  }

  lemma ParentDescends(s: System)
    requires Good(s) && Enabled(s, OfParent)
    ensures var r := ParentStep(s); |r.children| == |r.cbs| && Rank(r) < Rank(s)
  {
    var r := ParentStep(s);
    if (s.parent.Creating? || s.parent.Waiting?) && s.parent.k < |s.children| {
      var k := s.parent.k;
      assert ChildOk(k, s.children[k], Created(s, k), Constructed(s, k));
      OneChild(s, r, k);
    }
  }

  lemma ChildDescends(s: System, k: nat)
    requires Good(s) && Enabled(s, OfChild(k))
    ensures var r := ChildStep(s, k); |r.children| == |r.cbs| && Rank(r) < Rank(s)
  {
    hide ChildStep, Rank, ParentRank, ChildRank, Enabled;
    ChildAdvances(s, k);
    OneChild(s, ChildStep(s, k), k);
  }

  lemma ChildAdvances(s: System, k: nat)
    requires Good(s) && Enabled(s, OfChild(k))
    ensures var r := ChildStep(s, k);
      && k < |s.children| == |r.children| == |s.cbs| && r.children == s.children[k := r.children[k]] && r.cbs == s.cbs
      && ParentRank(r) == ParentRank(s) && ChildRank(r.children[k], s.cbs[k]) < ChildRank(s.children[k], s.cbs[k])
  {
    assert ChildOk(k, s.children[k], Created(s, k), Constructed(s, k));
  }

  lemma NextDescends(s: System, m: Move)
    requires Good(s) && Enabled(s, m)
    ensures |Next(s, m).children| == |Next(s, m).cbs| && Rank(Next(s, m)) < Rank(s)
  {
    match m
    case OfParent => ParentDescends(s);
    case OfChild(k) => ChildDescends(s, k);
    case CreateFails =>
    case Destroy(k) => OneChild(s, Next(s, m), k);
  }

  /** Every run of the parent and the threads is finite, whoever goes first. */
  lemma {:induction false} RunsAreShort(s: System, moves: seq<Move>, r: System)
    requires Good(s) && StartLeads(s, moves, r)
    ensures |r.children| == |r.cbs| && |moves| + Rank(r) <= Rank(s)
    decreases |moves|
  {
    if moves != [] {
      NextDescends(s, moves[0]);
      NextGood(s, moves[0]);
      RunsAreShort(Next(s, moves[0]), moves[1..], r);
    }
  }

  /** From any reachable state, every run is finite, and one that cannot be continued has got
      everything done. */
  lemma EveryStartEnds(s: System, moves: seq<Move>, r: System)
    requires StartReaches(s) && StartLeads(s, moves, r)
    ensures |s.children| == |s.cbs| && |moves| <= Rank(s)
    ensures (forall m :: !Enabled(r, m)) ==> Settled(r)
  {
    ReachableGood(s);
    RunsAreShort(s, moves, r);
    LeadsGood(s, moves, r);
    if forall m :: !Enabled(r, m) {
      if r.parent.Waiting? { WaitingGoes(r, r.parent.k); }
      FreeStuck(r);
    }
  }

  // ----- the pthread handle of one object

  /** What the system knows of a thread that was started: joined or detached, and how often. */
  class Pthread {
    var released: nat

    constructor ()
      ensures released == 0
    {
      released := 0;
    }

    /** Wait for the thread to end and let go of it; the system may refuse. */
    method Join(refuses: bool) returns (rt: int)
      modifies this
      ensures rt != 0 <==> refuses
      ensures released == old(released) + if refuses then 0 else 1
    {
      rt := if refuses then 1 else 0;
      released := if refuses then released else released + 1;
    }

    method Detach()
      modifies this
      ensures released == old(released) + 1
    {
      released := released + 1;
    }
  }

  class Thread {
    var m_thread: Pthread?

    constructor (handle: Pthread)
      ensures m_thread == handle
    {
      m_thread := handle;
    }

    method Join(refuses: bool) returns (threw: bool)
      modifies this, if m_thread == null then {} else {m_thread}
      ensures threw <==> old(m_thread) != null && refuses
      ensures m_thread == if threw then old(m_thread) else null
      ensures old(m_thread) != null ==>
        old(m_thread).released == old(m_thread.released) + if m_thread == null then 1 else 0
    {
      if m_thread != null {
        var rt := m_thread.Join(refuses);
        if rt != 0 { return true; }
        m_thread := null;
      }
      threw := false;
    }

    /** What the destructor does. */
    method Release()
      modifies this, if m_thread == null then {} else {m_thread}
      ensures old(m_thread) != null ==> old(m_thread).released == old(m_thread.released) + 1
    {
      if m_thread != null {
        m_thread.Detach();
      }
    }
  }

  /** However often an object is joined, with whatever outcomes, and whether it is joined at all: when
      it is destroyed its thread has been released exactly once. */
  method Live(handle: Pthread, joins: seq<bool>)
    requires handle.released == 0
    modifies handle
    ensures handle.released == 1
  {
    var thread := new Thread(handle);
    for i := 0 to |joins|
      invariant fresh(thread) && thread.m_thread in {handle, null}
      invariant handle.released == if thread.m_thread == null then 1 else 0
    {
      var _ := thread.Join(joins[i]);
    }
    thread.Release();
  }
}
