/** The protocol's invariant is inductive: it holds at the start and every legal event of
    every processor keeps it. */
module Invariant {
  import opened Basics
  import opened Protocol
  import opened Ownership

  lemma PlacedStep(s: Sys, w: map<Ptr, Place>, e: Event)
    requires Placed(s, w) && Enabled(s, e) && Harmless(s, e) && Registers(s.procs[e.i], s.heap)
    ensures Placed(Apply(s, e), Moved(s, w, e))
  {
    hide Apply, Placed, Registers;
    if Quiet(s, e) {
      QuietPlaced(s, w, e);
    } else {
      match e
      case TopCreate(_, _, _) => TopCreatePlaced(s, w, e);
      case SpawnCreate(_, _, _) => SpawnCreatePlaced(s, w, e);
      case Pop(i) => PopPlaced(s, w, i);
      case Dispatch(i) => DispatchPlaced(s, w, i);
      case Push(i) => PushPlaced(s, w, i);
      case Drain(i) => DrainPlaced(s, w, i);
      case WaitInsert(_, _) => WaitPlaced(s, w, e);
      case Free(i) => FreePlaced(s, w, i);
    }
  }

  predicate HasHdl(pc: Pc) {
    pc.Executing? || pc.Counted? || pc.InWait? || pc.Returned? || pc.Pushing? || pc.Freeing?
  }

  /** Whatever a processor works on is owned by that processor. */
  lemma HdlHome(s: Sys, w: map<Ptr, Place>, i: nat)
    requires Placed(s, w) && i < |s.procs| && HasHdl(s.procs[i].pc)
    ensures var h := s.procs[i].pc.hdl; h in w && !w[h].Queued? && !w[h].Slot? && w[h].i == i
  {
    assert ProcPlaced(s.procs[i], i, w);
  }

  /** A coroutine that has just switched back is live, and parked if it has blocked. */
  lemma ReturnedPlaced(s: Sys, w: map<Ptr, Place>, p: Proc, h: Ptr)
    requires Placed(s, w) && s.procs == [p] && p.pc == Returned(h)
    ensures h in s.heap && (p.lastResult == Some(Ok(Blocked)) ==> exists t :: t in p.slab && p.slab[t] == h)
  {
    HdlHome(s, w, 0);
    assert Holds(s, w[h], h) && ProcPlaced(s.procs[0], 0, w);
  }

  lemma RegistersElsewhere(p: Proc, heap: map<Ptr, Coroutine>, heap': map<Ptr, Coroutine>, h: Ptr)
    requires Registers(p, heap) && (HasHdl(p.pc) ==> p.pc.hdl != h)
    requires forall g :: g in heap && g != h ==> g in heap' && heap'[g] == heap[g]
    ensures Registers(p, heap')
  {
  }

  /** The coroutine whose box an event writes or drops: it is the one at hand. */
  lemma HeapStep(s: Sys, e: Event)
    requires Enabled(s, e)
    ensures var heap' := Apply(s, e).heap;
      || heap' == s.heap
      || ((e.TopCreate? || e.SpawnCreate?) && forall g :: g in s.heap ==> g in heap' && heap'[g] == s.heap[g])
      || (HasHdl(s.procs[e.i].pc) &&
          forall g :: g in s.heap && g != s.procs[e.i].pc.hdl ==> g in heap' && heap'[g] == s.heap[g])
  {
  }

  lemma RegistersOthers(s: Sys, w: map<Ptr, Place>, e: Event, j: nat)
    requires Placed(s, w) && Enabled(s, e) && j < |s.procs| && j != e.i && Registers(s.procs[j], s.heap)
    ensures Registers(s.procs[j], Apply(s, e).heap)
  {
    HeapStep(s, e);
    var s' := Apply(s, e);
    if HasHdl(s.procs[j].pc) {
      HdlHome(s, w, j);
    }
    if e.TopCreate? || e.SpawnCreate? {
      RegistersElsewhere(s.procs[j], s.heap, s'.heap, e.ptr);
    } else if s'.heap != s.heap {
      HdlHome(s, w, e.i);
      RegistersElsewhere(s.procs[j], s.heap, s'.heap, s.procs[e.i].pc.hdl);
    }
  }

  /** While the top-level coroutine has not run there is nothing to pop, to poll for or to
      exit on. */
  lemma BootSilence(s: Sys, w: map<Ptr, Place>, i: nat)
    requires Inv(s, w) && i < |s.procs| && Boots(s.procs[i])
    ensures forall h :: h in w ==> w[h] == Slot(i)
    ensures forall h :: h !in s.queue
    ensures forall t :: t !in s.procs[i].slab
    ensures forall j :: 0 <= j < |s.procs| ==> Pending(s.procs[j]) == 0
  {
    QueuePlaced(s, w);
    assert ProcPlaced(s.procs[i], i, w);
    forall j | 0 <= j < |s.procs| ensures Pending(s.procs[j]) == 0 {
      assert Control(s.procs[j], s.heap);
      if HasHdl(s.procs[j].pc) { HdlHome(s, w, j); }
    }
  }

  lemma {:induction false} SumZeros(xs: seq<int>)
    requires forall k :: 0 <= k < |xs| ==> xs[k] == 0
    ensures Sum(xs) == 0
  {
    if xs != [] { SumZeros(xs[..|xs| - 1]); }
  }

  /** With no work counted before any thread schedules, nothing is alive. */
  lemma FreshStart(s: Sys, w: map<Ptr, Place>)
    requires Inv(s, w) && s.workCount == 0 && forall j :: 0 <= j < |s.procs| ==> s.procs[j].pc.Outside?
    ensures s.heap == map[] && forall j :: 0 <= j < |s.procs| ==> s.procs[j].newSpawned.None?
  {
    SumZeros(PendingOf(s.procs));
    assert |s.heap| == 0;
    forall j | 0 <= j < |s.procs| ensures s.procs[j].newSpawned.None? {
      assert ProcPlaced(s.procs[j], j, w);
    }
  }

  lemma BootCounted(s: Sys, w: map<Ptr, Place>, i: nat)
    requires Inv(s, w) && i < |s.procs| && Boots(s.procs[i])
    ensures s.workCount == 1
  {
    BootSilence(s, w, i);
    SumZeros(PendingOf(s.procs));
    assert |s.heap.Keys| == 1;
  }

  predicate InLoop(e: Event) {
    e.TopCount? || e.TopCreate? || e.Start? || e.Pop? || e.CheckSlab? || e.Poll? || e.PollError? || e.CheckCount?
  }

  lemma RegistersLoop(s: Sys, w: map<Ptr, Place>, e: Event)
    requires Placed(s, w) && Enabled(s, e) && InLoop(e) && Registers(s.procs[e.i], s.heap)
    ensures Registers(Apply(s, e).procs[e.i], Apply(s, e).heap)
  {
    assert ProcPlaced(s.procs[e.i], e.i, w);
    QueuePlaced(s, w);
  }

  lemma RegistersDrain(s: Sys, w: map<Ptr, Place>, i: nat)
    requires Placed(s, w) && Enabled(s, Drain(i)) && Registers(s.procs[i], s.heap)
    ensures Registers(Apply(s, Drain(i)).procs[i], Apply(s, Drain(i)).heap)
  {
    assert ProcPlaced(s.procs[i], i, w);
  }

  lemma DispatchStays(s: Sys, i: nat)
    requires Enabled(s, Dispatch(i)) && (s.procs[i].pc.batch != [] ==> s.procs[i].pc.batch[0] !in s.procs[i].slab)
    ensures var p := s.procs[i];
      Apply(s, Dispatch(i)) == s.(procs := s.procs[i := p.(pc :=
        if p.pc.batch == [] then Draining else Dispatching(p.pc.batch[1..]))])
  {
  }

  lemma RegistersDispatch(s: Sys, w: map<Ptr, Place>, i: nat)
    requires Placed(s, w) && Enabled(s, Dispatch(i)) && Registers(s.procs[i], s.heap)
    ensures Registers(Apply(s, Dispatch(i)).procs[i], Apply(s, Dispatch(i)).heap)
  {
    hide Apply, Placed, ProcPlaced;
    var p := s.procs[i];
    if p.pc.batch != [] && p.pc.batch[0] in p.slab {
      DispatchTakes(s, i);
      ParkedIsLive(s, w, i, p.pc.batch[0]);
    } else {
      DispatchStays(s, i);
    }
  }

  lemma ParkedIsLive(s: Sys, w: map<Ptr, Place>, i: nat, t: Token)
    requires Placed(s, w) && i < |s.procs| && t in s.procs[i].slab
    ensures var h := s.procs[i].slab[t]; h in s.heap && !s.heap[h].returned
  {
    assert ProcPlaced(s.procs[i], i, w);
  }

  lemma RegistersGiving(s: Sys, e: Event)
    requires Enabled(s, e) && (e.Push? || e.Handle? || e.Free?) && Registers(s.procs[e.i], s.heap)
    ensures Registers(Apply(s, e).procs[e.i], Apply(s, e).heap)
  {
  }

  lemma RegistersUser(s: Sys, e: Event)
    requires Enabled(s, e) && Registers(s.procs[e.i], s.heap)
    requires InUserCode(e) || e.SpawnCreate? || e.WaitInsert?
    ensures Registers(Apply(s, e).procs[e.i], Apply(s, e).heap)
  {
    hide CanCreate;
  }

  lemma RegistersEnding(s: Sys, e: Event)
    requires Enabled(s, e) && Registers(s.procs[e.i], s.heap) && Ends(e)
    ensures Registers(Apply(s, e).procs[e.i], Apply(s, e).heap)
  {
  }

  lemma RegistersSelf(s: Sys, w: map<Ptr, Place>, e: Event)
    requires Placed(s, w) && Enabled(s, e) && !e.RegisterFail? && Registers(s.procs[e.i], s.heap)
    ensures Registers(Apply(s, e).procs[e.i], Apply(s, e).heap)
  {
    hide Apply, Placed, Registers;
    if InLoop(e) {
      RegistersLoop(s, w, e);
    } else if e.Drain? {
      RegistersDrain(s, w, e.i);
    } else if e.Dispatch? {
      RegistersDispatch(s, w, e.i);
    } else if e.Push? || e.Handle? || e.Free? {
      RegistersGiving(s, e);
    } else if Ends(e) {
      RegistersEnding(s, e);
    } else {
      RegistersUser(s, e);
    }
  }

  lemma RegistersStep(s: Sys, w: map<Ptr, Place>, e: Event)
    requires Placed(s, w) && RegistersKept(s) && Enabled(s, e) && !e.RegisterFail?
    ensures RegistersKept(Apply(s, e))
  {
    hide Placed, Registers;
    var s' := Apply(s, e);
    forall j | 0 <= j < |s'.procs| ensures Registers(s'.procs[j], s'.heap) {
      assert Registers(s.procs[j], s.heap);
      if j != e.i {
        RegistersOthers(s, w, e, j);
      } else {
        RegistersSelf(s, w, e);
      }
    }
  }

  lemma SlotLoop(s: Sys, e: Event)
    requires Legal(s, e) && InLoop(e) && SlotFits(s.procs[e.i])
    requires Boots(s.procs[e.i]) ==>
      s.queue == [] && s.workCount != 0 && |s.procs[e.i].slab| == 0 && !e.TopCount?
    ensures SlotFits(Apply(s, e).procs[e.i])
  {
    hide CanCreate, Orderly;
  }

  lemma SlotUser(s: Sys, e: Event)
    requires Legal(s, e) && !InLoop(e) && !e.Trail? && Control(s.procs[e.i], s.heap)
    requires RunsUserCode(s, e.i) || e.Block? || e.SpawnCreate?
    ensures SlotFits(Apply(s, e).procs[e.i])
  {
    hide CanCreate, Orderly;
    assert s.procs[e.i].curRunning.Some? && s.procs[e.i].newSpawned.None?;
  }

  lemma SlotKernel(s: Sys, e: Event)
    requires Legal(s, e) && Control(s.procs[e.i], s.heap)
    requires e.Dispatch? || e.Push? || e.Drain? || e.Handle? || e.Free?
    ensures SlotFits(Apply(s, e).procs[e.i])
  {
  }

  lemma SlotFitsStep(s: Sys, e: Event)
    requires Legal(s, e) && Control(s.procs[e.i], s.heap)
    requires Boots(s.procs[e.i]) ==>
      s.queue == [] && s.workCount != 0 && |s.procs[e.i].slab| == 0 && !e.TopCount?
    ensures SlotFits(Apply(s, e).procs[e.i])
  {
    hide Apply, SlotFits;
    if InLoop(e) {
      SlotLoop(s, e);
    } else if e.Dispatch? || e.Push? || e.Drain? || e.Handle? || e.Free? {
      SlotKernel(s, e);
    } else {
      SlotUser(s, e);
    }
  }

  lemma SlotSelf(s: Sys, w: map<Ptr, Place>, e: Event)
    requires Inv(s, w) && Legal(s, e) && Control(s.procs[e.i], s.heap)
    ensures SlotFits(Apply(s, e).procs[e.i])
  {
    hide Apply, SlotFits, Registers, Placed;
    if Boots(s.procs[e.i]) {
      if e.TopCount? {
        FreshStart(s, w);
      }
      BootSilence(s, w, e.i);
      BootCounted(s, w, e.i);
      HeadIsIn(s.queue);
      assert s.procs[e.i].slab == map[];
    }
    SlotFitsStep(s, e);
  }

  lemma ControlStep(s: Sys, w: map<Ptr, Place>, e: Event)
    requires Inv(s, w) && Legal(s, e)
    ensures Controlled(Apply(s, e))
  {
    hide Registers, SlotFits, Placed;
    InvKept(s, w);
    assert Control(s.procs[e.i], s.heap);
    RegistersStep(s, w, e);
    SlotSelf(s, w, e);
    var s' := Apply(s, e);
    forall j | 0 <= j < |s'.procs| ensures Control(s'.procs[j], s'.heap) {
      assert Control(s.procs[j], s.heap) && Registers(s'.procs[j], s'.heap);
    }
  }

  /** A legal event is harmless, since the slot is empty whenever something is created. */
  lemma LegalIsHarmless(s: Sys, w: map<Ptr, Place>, e: Event)
    requires Inv(s, w) && Legal(s, e)
    ensures Harmless(s, e)
  {
    assert Control(s.procs[e.i], s.heap);
  }

  predicate Ends(e: Event) {
    e.Return? || e.Panic?
  }

  /** All other events leave the set of coroutines alone. */
  lemma HeapFrame(s: Sys, e: Event)
    requires Enabled(s, e) && !Creates(e) && !e.Free?
    ensures Apply(s, e).births == s.births && Apply(s, e).freed == s.freed
    ensures Apply(s, e).heap.Keys == s.heap.Keys
    ensures forall h :: h in s.heap ==>
      Apply(s, e).heap[h].id == s.heap[h].id && Apply(s, e).heap[h].stack == s.heap[h].stack
    ensures !Ends(e) ==> Apply(s, e).heap == s.heap
  {
  }

  lemma BootingStep(s: Sys, w: map<Ptr, Place>, e: Event)
    requires Inv(s, w) && Legal(s, e) && Controlled(Apply(s, e))
    ensures Booting(Apply(s, e))
  {
    HeapStep(s, e);
    assert Control(s.procs[e.i], s.heap);
    if e.TopCount? {
      FreshStart(s, w);
    } else if e.TopCreate? {
      BootingCreate(s, w, e);
    } else if e.SpawnCreate? || e.Free? || Ends(e) {
      BootingBusy(s, w, e);
    } else {
      HeapFrame(s, e);
      BootingQuiet(s, e);
    }
  }

  lemma BootingQuiet(s: Sys, e: Event)
    requires Booting(s) && Legal(s, e) && !e.TopCount? && !Creates(e) && !e.Free? && !Ends(e)
    requires Control(s.procs[e.i], s.heap) && Apply(s, e).heap == s.heap && |Apply(s, e).procs| == |s.procs|
    requires forall j :: 0 <= j < |s.procs| && j != e.i ==> Apply(s, e).procs[j] == s.procs[j]
    ensures Booting(Apply(s, e))
  {
    BootsBackward(s, e);
  }

  /** No event but a top-level spawn makes a processor boot. */
  lemma BootsBackward(s: Sys, e: Event)
    requires Legal(s, e) && !e.TopCount? && !e.TopCreate? && Control(s.procs[e.i], s.heap)
    ensures var p' := Apply(s, e).procs[e.i];
      !p'.pc.TopCounted? && (Boots(p') ==> Boots(s.procs[e.i]) && p'.newSpawned == s.procs[e.i].newSpawned)
  {
    if InLoop(e) {
      LoopBoots(s, e);
    }
  }

  lemma LoopBoots(s: Sys, e: Event)
    requires Legal(s, e) && InLoop(e) && !e.TopCount? && !e.TopCreate?
    ensures var p' := Apply(s, e).procs[e.i];
      !p'.pc.TopCounted? && (Boots(p') ==> Boots(s.procs[e.i]) && p'.newSpawned == s.procs[e.i].newSpawned)
  {
  }

  lemma BootingCreate(s: Sys, w: map<Ptr, Place>, e: Event)
    requires Inv(s, w) && Legal(s, e) && e.TopCreate?
    ensures Booting(Apply(s, e))
  {
    var s' := Apply(s, e);
    assert s.heap == map[] && s'.heap.Keys == {e.ptr};
    forall j | 0 <= j < |s.procs| && j != e.i ensures s.procs[j].newSpawned.None? {
      assert ProcPlaced(s.procs[j], j, w);
    }
  }

  /** A processor that is working on a coroutine rules out any booting one. */
  lemma NoneBoots(s: Sys, w: map<Ptr, Place>, i: nat)
    requires Inv(s, w) && i < |s.procs| && HasHdl(s.procs[i].pc)
    ensures forall j :: 0 <= j < |s.procs| ==> !Boots(s.procs[j]) && !s.procs[j].pc.TopCounted?
  {
    HdlHome(s, w, i);
    forall j | 0 <= j < |s.procs| ensures !Boots(s.procs[j]) {
      if Boots(s.procs[j]) {
        BootSilence(s, w, j);
      }
    }
  }

  lemma BootingBusy(s: Sys, w: map<Ptr, Place>, e: Event)
    requires Inv(s, w) && Legal(s, e) && (e.SpawnCreate? || e.Free? || Ends(e))
    ensures Booting(Apply(s, e))
  {
    HeapStep(s, e);
    assert Control(s.procs[e.i], s.heap);
    NoneBoots(s, w, e.i);
    BootsBackward(s, e);
    BootingNone(s, Apply(s, e), e.i);
  }

  lemma BootingNone(s: Sys, s': Sys, i: nat)
    requires i < |s.procs| == |s'.procs|
    requires forall j :: 0 <= j < |s.procs| ==> !Boots(s.procs[j]) && !s.procs[j].pc.TopCounted?
    requires forall j :: 0 <= j < |s.procs| && j != i ==> s'.procs[j] == s.procs[j]
    requires !Boots(s'.procs[i]) && !s'.procs[i].pc.TopCounted?
    ensures Booting(s')
  {
  }

  lemma PendingUpdate(procs: seq<Proc>, i: nat, p: Proc)
    requires i < |procs|
    ensures Sum(PendingOf(procs[i := p])) == Sum(PendingOf(procs)) - Pending(procs[i]) + Pending(p)
  {
    assert PendingOf(procs[i := p]) == PendingOf(procs)[i := Pending(p)];
    SumUpdate(PendingOf(procs), i, Pending(p));
  }

  /** The coroutines between fetch_sub and drop, and how many they are. */
  function Dying(procs: seq<Proc>): set<Ptr> {
    set i | 0 <= i < |procs| && procs[i].pc.Freeing? :: procs[i].pc.hdl
  }

  lemma DyingSnoc(procs: seq<Proc>, p: Proc)
    ensures Dying(procs + [p]) == if p.pc.Freeing? then Dying(procs) + {p.pc.hdl} else Dying(procs)
    ensures Sum(PendingOf(procs + [p])) == Sum(PendingOf(procs)) + Pending(p)
  {
    var all := procs + [p];
    assert PendingOf(all)[..|procs|] == PendingOf(procs);
    assert forall k :: 0 <= k < |procs| ==> all[k] == procs[k];
    assert all[|procs|] == p;
  }

  ghost predicate Apart(procs: seq<Proc>) {
    forall i, j :: 0 <= i < j < |procs| && procs[i].pc.Freeing? && procs[j].pc.Freeing? ==>
      procs[i].pc.hdl != procs[j].pc.hdl
  }

  lemma ApartSnoc(procs: seq<Proc>, p: Proc)
    requires Apart(procs + [p])
    ensures Apart(procs) && (p.pc.Freeing? ==> p.pc.hdl !in Dying(procs))
  {
    var all := procs + [p];
    assert forall k :: 0 <= k < |procs| ==> all[k] == procs[k];
    assert all[|procs|] == p;
  }

  lemma {:induction false} PendingBounds(procs: seq<Proc>)
    requires Apart(procs)
    ensures -|Dying(procs)| <= Sum(PendingOf(procs))
    ensures Sum(PendingOf(procs)) == -|Dying(procs)| ==>
              forall i :: 0 <= i < |procs| ==> !procs[i].pc.TopCounted? && !procs[i].pc.Counted?
  {
    if procs == [] {
      assert Dying(procs) == {};
    } else {
      hide Apart, Dying, PendingOf;
      var init, p := procs[..|procs| - 1], procs[|procs| - 1];
      assert procs == init + [p];
      ApartSnoc(init, p);
      PendingBounds(init);
      DyingSnoc(init, p);
    }
  }

  /** Dying coroutines are on the heap, one per processor. */
  lemma DyingOwned(s: Sys, w: map<Ptr, Place>)
    requires Placed(s, w)
    ensures Dying(s.procs) <= s.heap.Keys
    ensures forall h :: h in Dying(s.procs) ==> w[h].Hand? && w[h].i < |s.procs| && s.procs[w[h].i].pc == Freeing(h)
    ensures forall i, j :: 0 <= i < j < |s.procs| && s.procs[i].pc.Freeing? && s.procs[j].pc.Freeing? ==>
              s.procs[i].pc.hdl != s.procs[j].pc.hdl
  {
    forall i | 0 <= i < |s.procs| && s.procs[i].pc.Freeing?
      ensures s.procs[i].pc.hdl in w && w[s.procs[i].pc.hdl] == Hand(i)
    {
      assert ProcPlaced(s.procs[i], i, w);
    }
  }

  /** The counter is at least the number of live coroutines that are not being dropped. */
  lemma CountAlive(s: Sys, w: map<Ptr, Place>)
    requires Placed(s, w) && Accounted(s)
    ensures s.workCount >= |s.heap.Keys - Dying(s.procs)|
    ensures s.workCount == 0 ==>
      s.heap.Keys == Dying(s.procs) && forall i :: 0 <= i < |s.procs| ==>
        !s.procs[i].pc.TopCounted? && !s.procs[i].pc.Counted?
  {
    hide Placed;
    DyingOwned(s, w);
    PendingBounds(s.procs);
    var alive := s.heap.Keys - Dying(s.procs);
    assert s.heap.Keys == alive + Dying(s.procs);
    assert |s.heap| == |alive| + |Dying(s.procs)|;
  }

  lemma HandleAccounted(s: Sys, i: nat)
    requires Accounted(s) && Enabled(s, Handle(i)) && s.workCount > 0
    ensures Accounted(Apply(s, Handle(i)))
  {
    var s' := Apply(s, Handle(i));
    assert s'.procs == s.procs[i := s'.procs[i]];
    PendingUpdate(s.procs, i, s'.procs[i]);
  }

  lemma CreateAccounted(s: Sys, e: Event)
    requires Accounted(s) && Enabled(s, e) && Creates(e)
    ensures Accounted(Apply(s, e))
  {
    var s' := Apply(s, e);
    assert s'.procs == s.procs[e.i := s'.procs[e.i]];
    PendingUpdate(s.procs, e.i, s'.procs[e.i]);
    assert |s'.heap| == |s.heap| + 1 by {
      assert s'.heap.Keys == s.heap.Keys + {e.ptr} && |s'.heap.Keys| == |s'.heap|;
    }
  }

  lemma FreeAccounted(s: Sys, i: nat)
    requires Accounted(s) && Enabled(s, Free(i))
    ensures Accounted(Apply(s, Free(i)))
  {
    var s', h := Apply(s, Free(i)), s.procs[i].pc.hdl;
    PendingUpdate(s.procs, i, s'.procs[i]);
    assert |s.heap| == |s'.heap| + 1 by {
      assert s.heap.Keys == s'.heap.Keys + {h} && |s'.heap.Keys| == |s'.heap| && |s.heap.Keys| == |s.heap|;
    }
  }

  lemma CountAccounted(s: Sys, e: Event)
    requires Accounted(s) && Enabled(s, e) && (e.TopCount? || e.SpawnCount?)
    ensures Accounted(Apply(s, e))
  {
    PendingUpdate(s.procs, e.i, Apply(s, e).procs[e.i]);
  }

  /** An event that neither counts, creates nor drops a coroutine. */
  lemma QuietCount(s: Sys, e: Event)
    requires Enabled(s, e) && !Creates(e) && !e.Free? && !e.TopCount? && !e.SpawnCount? && !e.Handle?
    requires Registers(s.procs[e.i], s.heap)
    ensures var s' := Apply(s, e);
      && s'.procs == s.procs[e.i := s'.procs[e.i]] && s'.workCount == s.workCount
      && Pending(s'.procs[e.i]) == Pending(s.procs[e.i])
  {
  }

  /** The accounting holds on; in particular fetch_sub never wraps around. */
  lemma AccountedStep(s: Sys, w: map<Ptr, Place>, e: Event)
    requires Placed(s, w) && Accounted(s) && Enabled(s, e) && Registers(s.procs[e.i], s.heap)
    ensures Accounted(Apply(s, e))
  {
    if e.Handle? {
      HandleCounts(s, w, e.i);
      HandleAccounted(s, e.i);
    } else if Creates(e) {
      CreateAccounted(s, e);
    } else if e.Free? {
      FreeAccounted(s, e.i);
    } else if e.TopCount? || e.SpawnCount? {
      CountAccounted(s, e);
    } else {
      QuietCount(s, e);
      HeapFrame(s, e);
      PendingUpdate(s.procs, e.i, Apply(s, e).procs[e.i]);
      assert |Apply(s, e).heap.Keys| == |s.heap.Keys|;
    }
  }

  lemma HandleCounts(s: Sys, w: map<Ptr, Place>, i: nat)
    requires Placed(s, w) && Accounted(s) && i < |s.procs| && s.procs[i].pc.Returned? && Registers(s.procs[i], s.heap)
    ensures s.workCount > 0
  {
    var h := s.procs[i].pc.hdl;
    HdlHome(s, w, i);
    DyingOwned(s, w);
    CountAlive(s, w);
    assert h in s.heap.Keys - Dying(s.procs);
  }

  lemma RegisteredCreate(s: Sys, e: Event)
    requires Registered(s) && Enabled(s, e) && Creates(e)
    ensures Registered(Apply(s, e))
  {
    var s' := Apply(s, e);
    assert s'.births == s.births + [e.ptr] && s'.freed == s.freed;
    assert s'.heap == s.heap[e.ptr := s'.heap[e.ptr]] && s'.heap[e.ptr].id == |s.births|;
  }

  lemma RegisteredFree(s: Sys, i: nat)
    requires Registered(s) && Enabled(s, Free(i))
    ensures Registered(Apply(s, Free(i)))
  {
    var s', h := Apply(s, Free(i)), s.procs[i].pc.hdl;
    assert s'.births == s.births && s'.freed == s.freed + [s.heap[h].id] && s'.heap == s.heap - {h};
  }

  lemma RegisteredStep(s: Sys, e: Event)
    requires Registered(s) && Enabled(s, e)
    ensures Registered(Apply(s, e))
  {
    if Creates(e) {
      RegisteredCreate(s, e);
    } else if e.Free? {
      RegisteredFree(s, e.i);
    } else {
      HeapFrame(s, e);
    }
  }

  /** Ownership, registers, counting and numbering need no more than harmless events. */
  lemma KeptStep(s: Sys, w: map<Ptr, Place>, e: Event)
    requires Kept(s, w) && Enabled(s, e) && Harmless(s, e)
    ensures Kept(Apply(s, e), Moved(s, w, e))
  {
    hide Apply, Placed, Registers, Accounted, Registered;
    assert Registers(s.procs[e.i], s.heap);
    PlacedStep(s, w, e);
    RegistersStep(s, w, e);
    AccountedStep(s, w, e);
    RegisteredStep(s, e);
  }

  lemma InvKept(s: Sys, w: map<Ptr, Place>)
    requires Inv(s, w)
    ensures Kept(s, w)
  {
    forall i | 0 <= i < |s.procs| ensures Registers(s.procs[i], s.heap) {
      assert Control(s.procs[i], s.heap);
    }
  }

  lemma InvStep(s: Sys, w: map<Ptr, Place>, e: Event)
    requires Inv(s, w) && Legal(s, e)
    ensures Inv(Apply(s, e), Moved(s, w, e))
  {
    hide Apply, Placed, Registers, SlotFits, Accounted, Registered, Booting;
    InvKept(s, w);
    LegalIsHarmless(s, w, e);
    KeptStep(s, w, e);
    ControlStep(s, w, e);
    BootingStep(s, w, e);
  }
}
