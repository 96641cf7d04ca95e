/** Who owns a coroutine handle, and the inductive invariant of the protocol. */
module Ownership {
  import opened Basics
  import opened Protocol

  /** The places that can own a handle. */
  datatype Place =
    | Queued                          // in the global ready queue
    | Slot(i: nat)                    // in new_spawned of processor i
    | Hand(i: nat)                    // held by code running on processor i
    | Parked(i: nat, token: Token)    // in the slab of processor i

  /** The handle that the code of a processor holds. A coroutine that has yielded Blocked,
      or is about to, is held by the slab instead. */
  function HandOf(p: Proc): Option<Ptr> {
    match p.pc
    case Executing(h) => Some(h)
    case Counted(h) => Some(h)
    case Returned(h) => if p.lastResult == Some(Ok(Blocked)) then None else Some(h)
    case Pushing(h, _) => Some(h)
    case Freeing(h) => Some(h)
    case _ => None
  }

  ghost predicate HoldsAt(p: Proc, pl: Place, h: Ptr) {
    match pl
    case Queued => false
    case Slot(_) => p.newSpawned == Some(h)
    case Hand(_) => HandOf(p) == Some(h)
    case Parked(_, t) => t in p.slab && p.slab[t] == h
  }

  ghost predicate Holds(s: Sys, pl: Place, h: Ptr) {
    if pl.Queued? then h in s.queue else pl.i < |s.procs| && HoldsAt(s.procs[pl.i], pl, h)
  }

  /** What processor i holds is at home with it. */
  ghost predicate ProcPlaced(p: Proc, i: nat, w: map<Ptr, Place>) {
    && (p.newSpawned.Some? ==> p.newSpawned.value in w && w[p.newSpawned.value] == Slot(i))
    && (HandOf(p).Some? ==> HandOf(p).value in w && w[HandOf(p).value] == Hand(i))
    && (forall t :: t in p.slab ==> p.slab[t] in w && w[p.slab[t]] == Parked(i, t))
    && (p.pc.InWait? ==> p.pc.token in p.slab && p.slab[p.pc.token] == p.pc.hdl)
    && (p.pc.Returned? && p.lastResult == Some(Ok(Blocked)) ==>
        p.pc.hdl in w && w[p.pc.hdl].Parked? && w[p.pc.hdl].i == i)
  }

  /** `w` gives every live coroutine its one owner. */
  ghost predicate Placed(s: Sys, w: map<Ptr, Place>) {
    && w.Keys == s.heap.Keys
    && NoDup(s.queue)
    && (forall k :: 0 <= k < |s.queue| ==> s.queue[k] in w && w[s.queue[k]] == Queued)
    && (forall i :: 0 <= i < |s.procs| ==> ProcPlaced(s.procs[i], i, w))
    && (forall h :: h in w ==> Holds(s, w[h], h))
    && (forall h :: h in s.heap && s.heap[h].returned ==> w[h].Hand?)
  }

  /** The registers of a processor agree with its program counter, whatever new_spawned
      holds. */
  ghost predicate Registers(p: Proc, heap: map<Ptr, Coroutine>) {
    match p.pc
    case Executing(h) => InCoroutine(p, h, heap)
    case Counted(h) => InCoroutine(p, h, heap)
    case InWait(h, _) => InCoroutine(p, h, heap)
    case Returned(h) =>
      && p.curRunning.None? && p.lastResult.Some? && h in heap
      && p.lastResult.value in {Ok(Suspended), Ok(Blocked), Ok(Finished), Panicking}
      && (heap[h].returned <==> p.lastResult.value in {Ok(Finished), Panicking})
    case Pushing(h, _) => Idle(p) && h in heap && !heap[h].returned
    case Freeing(h) => Idle(p) && h in heap && heap[h].returned
    case Polling => Idle(p) && p.slab != map[]
    case CheckingCount => Idle(p) && p.slab == map[]
    case Exited(ok) => Idle(p) && (!ok ==> p.slab != map[])
    case _ => Idle(p)
  }

  /** Where new_spawned may hold a coroutine as long as the premises are kept: while its
      parent is on the way into the queue, and before a launched coroutine runs. */
  ghost predicate SlotFits(p: Proc) {
    p.newSpawned.Some? ==>
      match p.pc
      case Outside => true
      case Popping => true
      case CheckingSlab => true
      case CheckingCount => true
      case Draining => true
      case Returned(_) => p.lastResult == Some(Ok(Suspended))
      case Pushing(_, rest) => rest.None?
      case _ => false
  }

  ghost predicate Control(p: Proc, heap: map<Ptr, Coroutine>) {
    Registers(p, heap) && SlotFits(p)
  }

  ghost predicate InCoroutine(p: Proc, h: Ptr, heap: map<Ptr, Coroutine>) {
    p.curRunning == Some(h) && p.lastResult.None? && h in heap && !heap[h].returned
  }

  ghost predicate Idle(p: Proc) {
    p.curRunning.None? && p.lastResult.None?
  }

  /** Processor i carries the top-level coroutine that has not run yet. */
  ghost predicate Boots(p: Proc) {
    p.newSpawned.Some? && (p.pc.Outside? || p.pc.Popping? || p.pc.CheckingSlab? || p.pc.CheckingCount?)
  }

  /** Before the top-level coroutine has run, nothing else is alive. */
  ghost predicate Booting(s: Sys) {
    && (forall i :: 0 <= i < |s.procs| && s.procs[i].pc.TopCounted? ==> s.heap == map[])
    && (forall i, j :: 0 <= i < j < |s.procs| ==> !(s.procs[i].pc.TopCounted? && s.procs[j].pc.TopCounted?))
    && (forall i :: 0 <= i < |s.procs| && Boots(s.procs[i]) ==> s.heap.Keys == {s.procs[i].newSpawned.value})
  }

  /** What processor p contributes to the counter beyond the coroutines on the heap. */
  function Pending(p: Proc): int {
    if p.pc.TopCounted? || p.pc.Counted? then 1 else if p.pc.Freeing? then -1 else 0
  }

  function PendingOf(procs: seq<Proc>): seq<int> {
    seq(|procs|, i requires 0 <= i < |procs| => Pending(procs[i]))
  }

  ghost predicate Accounted(s: Sys) {
    s.workCount == |s.heap| + Sum(PendingOf(s.procs))
  }

  /** Every coroutine ever born is either live, under its own birth number, or freed once. */
  ghost predicate Registered(s: Sys) {
    && NoDup(s.freed)
    && (forall k :: 0 <= k < |s.freed| ==> s.freed[k] < |s.births|)
    && (forall h :: h in s.heap ==>
        s.heap[h].id < |s.births| && s.births[s.heap[h].id] == h && s.heap[h].id !in s.freed)
    && (forall id :: 0 <= id < |s.births| ==>
        id in s.freed || (s.births[id] in s.heap && s.heap[s.births[id]].id == id))
  }

  ghost predicate RegistersKept(s: Sys) {
    forall i :: 0 <= i < |s.procs| ==> Registers(s.procs[i], s.heap)
  }

  /** The part of the invariant that needs no premise on when coroutines are launched. */
  ghost predicate Kept(s: Sys, w: map<Ptr, Place>) {
    Placed(s, w) && RegistersKept(s) && Accounted(s) && Registered(s)
  }

  ghost predicate Controlled(s: Sys) {
    forall i :: 0 <= i < |s.procs| ==> Control(s.procs[i], s.heap)
  }

  ghost predicate Inv(s: Sys, w: map<Ptr, Place>) {
    && Placed(s, w)
    && Controlled(s)
    && Booting(s)
    && Accounted(s)
    && Registered(s)
  }

  /** Where the one handle that an event moves ends up. */
  function Moved(s: Sys, w: map<Ptr, Place>, e: Event): map<Ptr, Place>
    requires Enabled(s, e)
  {
    var p := s.procs[e.i];
    match e
    case TopCreate(i, h, _) => w[h := Slot(i)]
    case SpawnCreate(i, h, _) => w[h := Slot(i)]
    case Pop(i) => if s.queue == [] then w else w[s.queue[0] := Hand(i)]
    case Dispatch(i) =>
      if p.pc.batch != [] && p.pc.batch[0] in p.slab then w[p.slab[p.pc.batch[0]] := Hand(i)] else w
    case Push(i) => if |s.queue| < GLOBAL_QUEUE_SIZE then w[p.pc.hdl := Queued] else w
    case Drain(i) => if p.newSpawned.Some? then w[p.newSpawned.value := Hand(i)] else w
    case WaitInsert(i, t) => w[p.pc.hdl := Parked(i, t)]
    case Free(i) => w - {p.pc.hdl}
    case _ => w
  }

  lemma QueuePlaced(s: Sys, w: map<Ptr, Place>)
    requires Placed(s, w)
    ensures forall h :: h in s.queue ==> h in w && w[h] == Queued
  {
    forall h | h in s.queue ensures h in w && w[h] == Queued {
      var k :| 0 <= k < |s.queue| && s.queue[k] == h;
    }
  }

  lemma HolderIsHome(s: Sys, w: map<Ptr, Place>, pl: Place, h: Ptr)
    requires Placed(s, w) && Holds(s, pl, h)
    ensures h in w && pl == w[h]
  {
    QueuePlaced(s, w);
    if !pl.Queued? {
      assert ProcPlaced(s.procs[pl.i], pl.i, w);
    }
  }

  /** w and w' differ at h at most. */
  ghost predicate Agree(w: map<Ptr, Place>, w': map<Ptr, Place>, h: Ptr) {
    forall g :: g != h ==> (g in w' <==> g in w) && (g in w ==> w'[g] == w[g])
  }

  /** A processor that does not own h does not notice that h moves. */
  lemma OthersPlaced(p: Proc, j: nat, w: map<Ptr, Place>, w': map<Ptr, Place>, h: Ptr)
    requires ProcPlaced(p, j, w) && Agree(w, w', h)
    requires h in w && !w[h].Queued? ==> w[h].i != j
    ensures ProcPlaced(p, j, w')
  {
  }

  lemma OthersHold(s: Sys, s': Sys, pl: Place, i: nat, g: Ptr)
    requires |s'.procs| == |s.procs| && forall j :: 0 <= j < |s.procs| && j != i ==> s'.procs[j] == s.procs[j]
    requires Holds(s, pl, g) && !pl.Queued? && pl.i != i
    ensures Holds(s', pl, g)
  {
  }

  /** Only processor i changes, and at most the handle h changes place. */
  lemma PlacedMove(s: Sys, s': Sys, w: map<Ptr, Place>, w': map<Ptr, Place>, i: nat, h: Ptr)
    requires Placed(s, w) && i < |s.procs|
    requires |s'.procs| == |s.procs| && forall j :: 0 <= j < |s.procs| && j != i ==> s'.procs[j] == s.procs[j]
    requires Agree(w, w', h) && w'.Keys == s'.heap.Keys
    requires h in w && !w[h].Queued? ==> w[h].i == i
    requires NoDup(s'.queue)
    requires forall g :: g in s'.queue <==> (g != h && g in s.queue) || (g == h && h in w' && w'[h].Queued?)
    requires ProcPlaced(s'.procs[i], i, w')
    requires h in w' ==> Holds(s', w'[h], h)
    requires forall g :: g in w && g != h && !w[g].Queued? && w[g].i == i ==> Holds(s', w[g], g)
    requires forall g :: g in s'.heap && s'.heap[g].returned ==> w'[g].Hand?
    ensures Placed(s', w')
  {
    QueuePlaced(s, w);
    forall j | 0 <= j < |s.procs| ensures ProcPlaced(s'.procs[j], j, w') {
      if j != i {
        OthersPlaced(s.procs[j], j, w, w', h);
      }
    }
    forall g | g in w' ensures Holds(s', w'[g], g) {
      if g != h && !w[g].Queued? && w[g].i != i {
        OthersHold(s, s', w[g], i, g);
      }
    }
  }

  lemma TopCreatePlaced(s: Sys, w: map<Ptr, Place>, e: Event)
    requires Placed(s, w) && Enabled(s, e) && e.TopCreate? && Registers(s.procs[e.i], s.heap)
    requires s.procs[e.i].newSpawned.None?
    ensures Placed(Apply(s, e), Moved(s, w, e))
  {
    QueuePlaced(s, w);
    assert ProcPlaced(s.procs[e.i], e.i, w);
    PlacedMove(s, Apply(s, e), w, Moved(s, w, e), e.i, e.ptr);
  }

  lemma SpawnCreatePlaced(s: Sys, w: map<Ptr, Place>, e: Event)
    requires Placed(s, w) && Enabled(s, e) && e.SpawnCreate? && Registers(s.procs[e.i], s.heap)
    requires s.procs[e.i].newSpawned.None?
    ensures Placed(Apply(s, e), Moved(s, w, e))
  {
    QueuePlaced(s, w);
    assert ProcPlaced(s.procs[e.i], e.i, w);
    assert HandOf(Apply(s, e).procs[e.i]) == HandOf(s.procs[e.i]) == Some(s.procs[e.i].pc.hdl);
    PlacedMove(s, Apply(s, e), w, Moved(s, w, e), e.i, e.ptr);
  }

  lemma PopPlaced(s: Sys, w: map<Ptr, Place>, i: nat)
    requires Placed(s, w) && Enabled(s, Pop(i)) && Registers(s.procs[i], s.heap) && s.queue != []
    ensures Placed(Apply(s, Pop(i)), Moved(s, w, Pop(i)))
  {
    QueuePlaced(s, w);
    assert ProcPlaced(s.procs[i], i, w);
    PlacedMove(s, Apply(s, Pop(i)), w, Moved(s, w, Pop(i)), i, s.queue[0]);
  }

  lemma HeldIsHome(p: Proc, i: nat, w: map<Ptr, Place>, t: Token)
    requires ProcPlaced(p, i, w) && t in p.slab
    ensures p.slab[t] in w && w[p.slab[t]] == Parked(i, t)
  {
  }

  lemma HandIsHome(p: Proc, i: nat, w: map<Ptr, Place>, h: Ptr)
    requires ProcPlaced(p, i, w) && HandOf(p) == Some(h)
    ensures h in w && w[h] == Hand(i)
  {
  }

  lemma DispatchTakes(s: Sys, i: nat)
    requires Enabled(s, Dispatch(i)) && s.procs[i].pc.batch != [] && s.procs[i].pc.batch[0] in s.procs[i].slab
    ensures var p := s.procs[i]; var t := p.pc.batch[0];
      Apply(s, Dispatch(i)) ==
      s.(procs := s.procs[i := p.(pc := Pushing(p.slab[t], Some(p.pc.batch[1..])), slab := p.slab - {t})])
  {
  }

  /** Processor p keeps at place i what it had there, except for h, which it has moved. */
  ghost predicate KeepsRest(p': Proc, i: nat, w: map<Ptr, Place>, w': map<Ptr, Place>, h: Ptr) {
    && ProcPlaced(p', i, w') && (h in w' && !w'[h].Queued? ==> HoldsAt(p', w'[h], h))
    && forall g :: g in w && g != h && !w[g].Queued? && w[g].i == i ==> HoldsAt(p', w[g], g)
  }

  lemma TakeLocal(p: Proc, i: nat, w: map<Ptr, Place>, t: Token, rest: seq<Token>)
    requires ProcPlaced(p, i, w) && p.pc.Dispatching? && t in p.slab && p.curRunning.None? && p.lastResult.None?
    requires forall g :: g in w && !w[g].Queued? && w[g].i == i ==> HoldsAt(p, w[g], g)
    ensures var h := p.slab[t];
      KeepsRest(p.(pc := Pushing(h, Some(rest)), slab := p.slab - {t}), i, w, w[h := Hand(i)], h)
  {
  }

  lemma ParkLocal(p: Proc, i: nat, w: map<Ptr, Place>, t: Token)
    requires ProcPlaced(p, i, w) && p.pc.Executing? && t !in p.slab && p.lastResult.None?
    requires forall g :: g in w && !w[g].Queued? && w[g].i == i ==> HoldsAt(p, w[g], g)
    ensures var h := p.pc.hdl;
      KeepsRest(p.(pc := InWait(h, t), slab := p.slab[t := h]), i, w, w[h := Parked(i, t)], h)
  {
  }

  lemma PushLocal(p: Proc, i: nat, w: map<Ptr, Place>, next: Pc)
    requires ProcPlaced(p, i, w) && p.pc.Pushing? && (next.Draining? || next.Dispatching?) && p.lastResult.None?
    requires forall g :: g in w && !w[g].Queued? && w[g].i == i ==> HoldsAt(p, w[g], g)
    ensures KeepsRest(p.(pc := next), i, w, w[p.pc.hdl := Queued], p.pc.hdl)
  {
  }

  /** What is at home with a processor it holds. */
  lemma HoldsOwn(s: Sys, w: map<Ptr, Place>, i: nat)
    requires Placed(s, w) && i < |s.procs|
    ensures ProcPlaced(s.procs[i], i, w)
    ensures forall g :: g in w && !w[g].Queued? && w[g].i == i ==> HoldsAt(s.procs[i], w[g], g)
  {
    forall g | g in w && !w[g].Queued? && w[g].i == i ensures HoldsAt(s.procs[i], w[g], g) {
      assert Holds(s, w[g], g);
    }
  }

  lemma DispatchPlaced(s: Sys, w: map<Ptr, Place>, i: nat)
    requires Placed(s, w) && Enabled(s, Dispatch(i)) && Registers(s.procs[i], s.heap)
    requires s.procs[i].pc.batch != [] && s.procs[i].pc.batch[0] in s.procs[i].slab
    ensures Placed(Apply(s, Dispatch(i)), Moved(s, w, Dispatch(i)))
  {
    hide Apply, NoDup, ProcPlaced, HoldsAt;
    var p := s.procs[i];
    QueuePlaced(s, w);
    DispatchTakes(s, i);
    HoldsOwn(s, w, i);
    TakeLocal(p, i, w, p.pc.batch[0], p.pc.batch[1..]);
    var s', h := Apply(s, Dispatch(i)), p.slab[p.pc.batch[0]];
    HeldIsHome(p, i, w, p.pc.batch[0]);
    PlacedMove(s, s', w, Moved(s, w, Dispatch(i)), i, h);
  }

  lemma PushPlaced(s: Sys, w: map<Ptr, Place>, i: nat)
    requires Placed(s, w) && Enabled(s, Push(i)) && Registers(s.procs[i], s.heap) && |s.queue| < GLOBAL_QUEUE_SIZE
    ensures Placed(Apply(s, Push(i)), Moved(s, w, Push(i)))
  {
    hide ProcPlaced, HoldsAt;
    QueuePlaced(s, w);
    HoldsOwn(s, w, i);
    var s', h := Apply(s, Push(i)), s.procs[i].pc.hdl;
    PushLocal(s.procs[i], i, w, s'.procs[i].pc);
    HandIsHome(s.procs[i], i, w, h);
    assert s'.queue == s.queue + [h] && h !in s.queue;
    PlacedMove(s, s', w, Moved(s, w, Push(i)), i, h);
  }

  lemma DrainPlaced(s: Sys, w: map<Ptr, Place>, i: nat)
    requires Placed(s, w) && Enabled(s, Drain(i)) && Registers(s.procs[i], s.heap) && s.procs[i].newSpawned.Some?
    ensures Placed(Apply(s, Drain(i)), Moved(s, w, Drain(i)))
  {
    QueuePlaced(s, w);
    assert ProcPlaced(s.procs[i], i, w);
    PlacedMove(s, Apply(s, Drain(i)), w, Moved(s, w, Drain(i)), i, s.procs[i].newSpawned.value);
  }

  lemma WaitParks(s: Sys, e: Event)
    requires Enabled(s, e) && e.WaitInsert?
    ensures var p := s.procs[e.i];
      Apply(s, e) ==
      s.(procs := s.procs[e.i := p.(pc := InWait(p.pc.hdl, e.token), slab := p.slab[e.token := p.pc.hdl])])
  {
  }

  lemma WaitPlaced(s: Sys, w: map<Ptr, Place>, e: Event)
    requires Placed(s, w) && Enabled(s, e) && Registers(s.procs[e.i], s.heap) && e.WaitInsert?
    ensures Placed(Apply(s, e), Moved(s, w, e))
  {
    hide Apply, NoDup, ProcPlaced, HoldsAt;
    QueuePlaced(s, w);
    WaitParks(s, e);
    HoldsOwn(s, w, e.i);
    ParkLocal(s.procs[e.i], e.i, w, e.token);
    var s', h := Apply(s, e), s.procs[e.i].pc.hdl;
    HandIsHome(s.procs[e.i], e.i, w, h);
    PlacedMove(s, s', w, Moved(s, w, e), e.i, h);
  }

  lemma FreePlaced(s: Sys, w: map<Ptr, Place>, i: nat)
    requires Placed(s, w) && Enabled(s, Free(i)) && Registers(s.procs[i], s.heap)
    ensures Placed(Apply(s, Free(i)), Moved(s, w, Free(i)))
  {
    QueuePlaced(s, w);
    assert ProcPlaced(s.procs[i], i, w);
    PlacedMove(s, Apply(s, Free(i)), w, Moved(s, w, Free(i)), i, s.procs[i].pc.hdl);
  }

  /** Only processor i changes, and nothing changes place. */
  lemma PlacedQuiet(s: Sys, s': Sys, w: map<Ptr, Place>, i: nat)
    requires Placed(s, w) && i < |s.procs|
    requires |s'.procs| == |s.procs|
    requires forall j :: 0 <= j < |s.procs| && j != i ==> s'.procs[j] == s.procs[j]
    requires s'.queue == s.queue && s'.heap.Keys == s.heap.Keys
    requires s'.procs[i].newSpawned == s.procs[i].newSpawned && s'.procs[i].slab == s.procs[i].slab
    requires HandOf(s'.procs[i]) == HandOf(s.procs[i])
    requires ProcPlaced(s'.procs[i], i, w)
    requires forall g :: g in s'.heap && s'.heap[g].returned ==> w[g].Hand?
    ensures Placed(s', w)
  {
    forall j | 0 <= j < |s.procs| ensures ProcPlaced(s'.procs[j], j, w) {
      if j != i {
        assert ProcPlaced(s.procs[j], j, w);
      }
    }
    forall g | g in w ensures Holds(s', w[g], g) {
      assert Holds(s, w[g], g);
    }
  }

  predicate Quiet(s: Sys, e: Event)
    requires Enabled(s, e)
  {
    var p := s.procs[e.i];
    match e
    case Pop(_) => s.queue == []
    case Dispatch(_) => p.pc.batch == [] || p.pc.batch[0] !in p.slab
    case Push(_) => |s.queue| >= GLOBAL_QUEUE_SIZE
    case Drain(_) => p.newSpawned.None?
    case TopCreate(_, _, _) => false
    case SpawnCreate(_, _, _) => false
    case WaitInsert(_, _) => false
    case Free(_) => false
    case _ => true
  }

  predicate InUserCode(e: Event) {
    e.Sched? || e.SpawnCount? || e.Block? || e.Trail?
  }

  lemma QuietInCode(s: Sys, e: Event)
    requires Enabled(s, e) && Registers(s.procs[e.i], s.heap) && (InUserCode(e) || e.Return? || e.Panic?)
    ensures var s' := Apply(s, e); var p, p' := s.procs[e.i], s'.procs[e.i];
      && |s'.procs| == |s.procs| && s'.queue == s.queue && s'.heap.Keys == s.heap.Keys
      && p'.newSpawned == p.newSpawned && p'.slab == p.slab && HandOf(p') == HandOf(p)
  {
    hide CanCreate;
  }

  lemma QuietInLoop(s: Sys, e: Event)
    requires Enabled(s, e) && !e.RegisterFail? && Quiet(s, e) && Registers(s.procs[e.i], s.heap)
    requires !InUserCode(e) && !e.Return? && !e.Panic?
    ensures var s' := Apply(s, e); var p, p' := s.procs[e.i], s'.procs[e.i];
      && |s'.procs| == |s.procs| && s'.queue == s.queue && s'.heap.Keys == s.heap.Keys
      && p'.newSpawned == p.newSpawned && p'.slab == p.slab && HandOf(p') == HandOf(p)
  {
  }

  /** A quiet event changes nothing that owns. */
  lemma QuietEffect(s: Sys, e: Event)
    requires Enabled(s, e) && !e.RegisterFail? && Quiet(s, e) && Registers(s.procs[e.i], s.heap)
    ensures var s' := Apply(s, e); var p, p' := s.procs[e.i], s'.procs[e.i];
      && |s'.procs| == |s.procs| && s'.queue == s.queue && s'.heap.Keys == s.heap.Keys
      && p'.newSpawned == p.newSpawned && p'.slab == p.slab && HandOf(p') == HandOf(p)
  {
    hide Apply, Registers, HandOf;
    if InUserCode(e) || e.Return? || e.Panic? {
      QuietInCode(s, e);
    } else {
      QuietInLoop(s, e);
    }
  }

  lemma QuietRegisters(s: Sys, e: Event)
    requires Enabled(s, e) && !e.RegisterFail? && Quiet(s, e) && Registers(s.procs[e.i], s.heap)
    ensures var p, p' := s.procs[e.i], Apply(s, e).procs[e.i];
      && !p'.pc.InWait?
      && (p'.pc.Returned? && p'.lastResult == Some(Ok(Blocked)) ==> p.pc.InWait? && p'.pc.hdl == p.pc.hdl)
      && (!e.Return? && !e.Panic? ==> Apply(s, e).heap == s.heap)
      && (e.Return? || e.Panic? ==>
          Apply(s, e).heap == s.heap[p.pc.hdl := s.heap[p.pc.hdl].(returned := true)] && HandOf(p) == Some(p.pc.hdl))
  {
  }

  lemma QuietPlaced(s: Sys, w: map<Ptr, Place>, e: Event)
    requires Placed(s, w) && Enabled(s, e) && !e.RegisterFail? && Quiet(s, e) && Registers(s.procs[e.i], s.heap)
    ensures Placed(Apply(s, e), w)
  {
    hide Apply, NoDup;
    assert ProcPlaced(s.procs[e.i], e.i, w);
    QuietEffect(s, e);
    QuietRegisters(s, e);
    PlacedQuiet(s, Apply(s, e), w, e.i);
  }
}
