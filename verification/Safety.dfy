/** What holds in every state of every run of the protocol, for any number of processors,
    any interleaving and any stream of I/O events. */
module Safety {
  import opened Basics
  import opened Protocol
  import opened Ownership
  import opened Invariant

  lemma InitInv(n: nat)
    ensures Inv(Init(n), map[])
  {
    SumZeros(PendingOf(Init(n).procs));
  }

  lemma {:induction false} RunInv(n: nat, es: seq<Event>) returns (w: map<Ptr, Place>)
    requires Exec(Init(n), es).Some?
    ensures Inv(Exec(Init(n), es).value, w)
    ensures |Exec(Init(n), es).value.procs| == n
  {
    if es == [] {
      InitInv(n);
      w := map[];
    } else {
      var init, e := es[..|es| - 1], es[|es| - 1];
      var w0 := RunInv(n, init);
      InvStep(Exec(Init(n), init).value, w0, e);
      HeapStep(Exec(Init(n), init).value, e);
      w := Moved(Exec(Init(n), init).value, w0, e);
    }
  }

  /** A run under the premises is one of harmless events. */
  lemma {:induction false} LegalRun(n: nat, es: seq<Event>)
    requires Exec(Init(n), es).Some?
    ensures RawExec(Init(n), es) == Exec(Init(n), es) && HarmlessRun(Init(n), es)
  {
    if es != [] {
      var init, e := es[..|es| - 1], es[|es| - 1];
      LegalRun(n, init);
      var w := RunInv(n, init);
      LegalIsHarmless(Exec(Init(n), init).value, w, e);
    }
  }

  lemma {:induction false} RunKept(n: nat, es: seq<Event>) returns (w: map<Ptr, Place>)
    requires RawExec(Init(n), es).Some? && HarmlessRun(Init(n), es)
    ensures Kept(RawExec(Init(n), es).value, w)
  {
    if es == [] {
      InitInv(n);
      w := map[];
      InvKept(Init(n), w);
    } else {
      var init, e := es[..|es| - 1], es[|es| - 1];
      var w0 := RunKept(n, init);
      KeptStep(RawExec(Init(n), init).value, w0, e);
      w := Moved(RawExec(Init(n), init).value, w0, e);
    }
  }

  /** Every live coroutine has exactly one owner, and nothing owns a dead one, in every run
      of harmless events, whenever and on whichever threads coroutines are launched. */
  lemma ExclusiveOwner(n: nat, es: seq<Event>, s: Sys, h: Ptr)
    requires RawExec(Init(n), es) == Some(s) && HarmlessRun(Init(n), es)
    ensures NoDup(s.queue)
    ensures h in s.heap <==> exists pl :: Holds(s, pl, h)
    ensures forall pl, pl' :: Holds(s, pl, h) && Holds(s, pl', h) ==> pl == pl'
  {
    var w := RunKept(n, es);
    forall pl | Holds(s, pl, h) ensures h in w && pl == w[h] {
      HolderIsHome(s, w, pl, h);
    }
    if h in s.heap {
      assert Holds(s, w[h], h);
    }
  }

  /** No coroutine is worked on by two processors, and none is runnable elsewhere while a
      processor works on it. Inside wait_event its handle is in that processor's own slab,
      under the token of that wait, and nowhere else. */
  lemma NeverTwice(n: nat, es: seq<Event>, s: Sys, i: nat, j: nat)
    requires RawExec(Init(n), es) == Some(s) && HarmlessRun(Init(n), es)
    requires i < |s.procs| && j < |s.procs| && HasHdl(s.procs[i].pc)
    ensures var pi, pj := s.procs[i], s.procs[j]; var h := pi.pc.hdl;
      && h in s.heap && h !in s.queue && pj.newSpawned != Some(h)
      && (i != j && HasHdl(pj.pc) ==> pj.pc.hdl != h)
      && (forall t :: t in pj.slab && pj.slab[t] == h ==>
           i == j && HandOf(pi).None? && (pi.pc.InWait? ==> t == pi.pc.token))
  {
    hide RawExec, HarmlessRun, Registers, Registered, Accounted;
    var w := RunKept(n, es);
    QueuePlaced(s, w);
    HdlHome(s, w, i);
    assert ProcPlaced(s.procs[i], i, w) && ProcPlaced(s.procs[j], j, w);
    if HasHdl(s.procs[j].pc) {
      HdlHome(s, w, j);
    }
  }

  /** Nothing is queued, parked, handed over, running or being created. */
  ghost predicate Quiescent(s: Sys) {
    && s.queue == []
    && forall i :: 0 <= i < |s.procs| ==>
        var p := s.procs[i];
        && p.slab == map[] && p.newSpawned.None?
        && !p.pc.TopCounted? && (HasHdl(p.pc) ==> p.pc.Freeing?)
  }

  /** A processor in a state whose coroutines are all being dropped. */
  lemma AllDying(s: Sys, w: map<Ptr, Place>, i: nat)
    requires Placed(s, w) && i < |s.procs|
    requires forall h :: h in w ==> w[h].Hand? && w[h].i < |s.procs| && s.procs[w[h].i].pc == Freeing(h)
    ensures s.procs[i].slab == map[] && s.procs[i].newSpawned.None? &&
      (HasHdl(s.procs[i].pc) ==> s.procs[i].pc.Freeing?)
  {
    assert ProcPlaced(s.procs[i], i, w);
    if HasHdl(s.procs[i].pc) {
      HdlHome(s, w, i);
    }
    assert forall t :: t !in s.procs[i].slab;
  }

  lemma ZeroIsQuiescent(s: Sys, w: map<Ptr, Place>)
    requires Placed(s, w) && Accounted(s)
    ensures s.workCount == 0 ==> Quiescent(s) && s.heap.Keys == Dying(s.procs)
  {
    CountAlive(s, w);
    DyingOwned(s, w);
    if s.workCount == 0 {
      QueuePlaced(s, w);
      HeadIsIn(s.queue);
      forall i | 0 <= i < |s.procs|
        ensures s.procs[i].slab == map[] && s.procs[i].newSpawned.None? &&
          (HasHdl(s.procs[i].pc) ==> s.procs[i].pc.Freeing?)
      {
        AllDying(s, w, i);
      }
    }
  }

  /** A zero counter stays zero: with none alive, only a top-level spawn could count. */
  lemma ZeroStep(s: Sys, w: map<Ptr, Place>, e: Event)
    requires Kept(s, w) && Enabled(s, e) && !e.RegisterFail? && s.workCount == 0 && !e.TopCount?
    ensures Apply(s, e).workCount == 0
  {
    hide Placed, Registered;
    ZeroIsQuiescent(s, w);
    if !e.SpawnCount? && !e.Handle? && !Creates(e) && !e.Free? {
      assert Registers(s.procs[e.i], s.heap);
      QuietCount(s, e);
    }
  }

  ghost predicate SomeExited(s: Sys) {
    exists i :: 0 <= i < |s.procs| && s.procs[i].pc == Exited(true)
  }

  lemma ExitedStep(s: Sys, e: Event)
    requires Legal(s, e)
    ensures SomeExited(s) ==> SomeExited(Apply(s, e)) && !e.TopCount?
    ensures SomeExited(Apply(s, e)) && !SomeExited(s) ==> s.workCount == 0 && Apply(s, e).workCount == 0
  {
    HeapStep(s, e);
    if SomeExited(s) {
      var i :| 0 <= i < |s.procs| && s.procs[i].pc == Exited(true);
      assert e.i != i;
      assert Apply(s, e).procs[i].pc == Exited(true);
    } else if SomeExited(Apply(s, e)) {
      var i :| 0 <= i < |s.procs| && Apply(s, e).procs[i].pc == Exited(true);
      assert i == e.i;
    }
  }

  lemma {:induction false} ExitedRun(n: nat, es: seq<Event>)
    requires Exec(Init(n), es).Some? && SomeExited(Exec(Init(n), es).value)
    ensures Exec(Init(n), es).value.workCount == 0
  {
    if es != [] {
      var init, e := es[..|es| - 1], es[|es| - 1];
      var m := Exec(Init(n), init).value;
      ExitedStep(m, e);
      if SomeExited(m) {
        ExitedRun(n, init);
        var w := RunInv(n, init);
        InvKept(m, w);
        ZeroStep(m, w, e);
      }
    }
  }

  lemma {:induction false} ExitedStays(n: nat, es: seq<Event>, k: nat, i: nat, ok: bool)
    requires k <= |es| && Exec(Init(n), es).Some? && Exec(Init(n), es[..k]).Some?
    requires i < |Exec(Init(n), es[..k]).value.procs| && Exec(Init(n), es[..k]).value.procs[i].pc == Exited(ok)
    ensures i < |Exec(Init(n), es).value.procs|
    ensures Exec(Init(n), es).value.procs[i].pc == Exited(ok)
  {
    if k == |es| {
      assert es[..k] == es;
    } else {
      var init, e := es[..|es| - 1], es[|es| - 1];
      assert init[..k] == es[..k];
      ExitedStays(n, init, k, i, ok);
      HeapStep(Exec(Init(n), init).value, e);
    }
  }

  /** Termination detection is safe although the three checks are not atomic. When a
      processor has left its loop by the break after the first k events, then at that
      point and ever after no work exists anywhere; when it has left with an I/O error,
      work remains ever after, and no other processor can take the break. */
  lemma ExitDecides(n: nat, es: seq<Event>, k: nat, m: Sys, s: Sys, i: nat)
    requires k <= |es| && Exec(Init(n), es[..k]) == Some(m) && Exec(Init(n), es) == Some(s)
    requires i < |m.procs| && m.procs[i].pc.Exited?
    ensures Quiescent(s) <==> m.procs[i].pc.ok
    ensures SomeExited(s) ==> m.procs[i].pc.ok
  {
    ExitedStays(n, es, k, i, m.procs[i].pc.ok);
    var w := RunInv(n, es);
    if SomeExited(s) {
      ExitedRun(n, es);
    }
    ExitMeans(s, w, i);
  }

  /** What an exited processor knows, given that a break needs a zero counter. */
  lemma ExitMeans(s: Sys, w: map<Ptr, Place>, i: nat)
    requires Inv(s, w) && i < |s.procs| && s.procs[i].pc.Exited? && (SomeExited(s) ==> s.workCount == 0)
    ensures Quiescent(s) <==> s.procs[i].pc.ok
    ensures SomeExited(s) ==> s.procs[i].pc.ok
  {
    assert Control(s.procs[i], s.heap);
    ZeroIsQuiescent(s, w);
    if s.procs[i].pc.ok {
      assert s.procs[i].pc == Exited(true);
    }
  }

  /** When every thread of Scheduler::run has returned without error, every coroutine that
      was ever spawned has been dropped, exactly once, and none is left. */
  lemma RunReturns(n: nat, es: seq<Event>, s: Sys)
    requires n > 0 && Exec(Init(n), es) == Some(s)
    requires forall i :: 0 <= i < |s.procs| ==> s.procs[i].pc == Exited(true)
    ensures s.heap == map[] && s.queue == [] && s.workCount == 0
    ensures NoDup(s.freed) && forall id :: id in s.freed <==> 0 <= id < |s.births|
  {
    var w := RunInv(n, es);
    assert s.procs[0].pc == Exited(true);
    ExitedRun(n, es);
    ZeroIsQuiescent(s, w);
    assert Dying(s.procs) == {};
  }

  /** The counter is exact in every state: the coroutines on the heap, plus the spawns
      between add and create, minus the finishes between subtract and drop. */
  lemma CounterExact(n: nat, es: seq<Event>, s: Sys)
    requires RawExec(Init(n), es) == Some(s) && HarmlessRun(Init(n), es)
    ensures s.workCount == |s.heap| + Sum(PendingOf(s.procs))
  {
    var w := RunKept(n, es);
  }

  /** It is never less than the number of live coroutines that are not being dropped. */
  lemma CounterCovers(n: nat, es: seq<Event>, s: Sys)
    requires RawExec(Init(n), es) == Some(s) && HarmlessRun(Init(n), es)
    ensures s.workCount >= |s.heap.Keys - Dying(s.procs)|
  {
    var w := RunKept(n, es);
    CountAlive(s, w);
  }

  /** fetch_add and fetch_sub move the counter by one, and nothing else moves it. */
  predicate CountMoves(s: Sys, e: Event)
    requires Enabled(s, e)
  {
    Apply(s, e).workCount == s.workCount +
      (if e.TopCount? || e.SpawnCount? then 1 else if e.Handle? && Apply(s, e).procs[e.i].pc.Freeing? then -1 else 0)
  }

  lemma CountStep(s: Sys, w: map<Ptr, Place>, e: Event)
    requires Kept(s, w) && Enabled(s, e) && Harmless(s, e)
    ensures CountMoves(s, e)
  {
    assert Registers(s.procs[e.i], s.heap);
    if e.Handle? {
      HandleCounts(s, w, e.i);
      SubStep(s, e.i);
    } else if e.TopCount? || e.SpawnCount? {
      AddStep(s, e);
    } else if !Creates(e) && !e.Free? {
      QuietCount(s, e);
    }
  }

  lemma SubStep(s: Sys, i: nat)
    requires Enabled(s, Handle(i)) && 0 < s.workCount
    ensures Apply(s, Handle(i)).workCount == s.workCount - (if Apply(s, Handle(i)).procs[i].pc.Freeing? then 1 else 0)
  {
  }

  lemma AddStep(s: Sys, e: Event)
    requires Enabled(s, e) && (e.TopCount? || e.SpawnCount?)
    ensures Apply(s, e).workCount == s.workCount + 1
  {
  }

  /** The counter changes by one at a time: fetch_sub never wraps around below zero. */
  lemma CounterNeverWraps(n: nat, es: seq<Event>, s: Sys, e: Event)
    requires RawExec(Init(n), es) == Some(s) && HarmlessRun(Init(n), es)
    requires Enabled(s, e) && Harmless(s, e)
    ensures CountMoves(s, e)
  {
    var w := RunKept(n, es);
    CountStep(s, w, e);
  }
}
