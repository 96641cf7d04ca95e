/** One coroutine over a whole run: its yields reach its own run_task, its end is final,
    and a coroutine it spawns is the next one its processor runs. */
module LifeCycle {
  import opened Basics
  import opened Protocol
  import opened Ownership
  import opened Invariant
  import opened Safety

  /** The result that an event of a running coroutine hands to main_coro. */
  function YieldOf(e: Event): Option<YieldResult> {
    match e
    case Sched(_) => Some(Ok(Suspended))
    case SpawnCreate(_, _, _) => Some(Ok(Suspended))
    case Block(_) => Some(Ok(Blocked))
    case Return(_) => Some(Ok(Finished))
    case Panic(_) => Some(Panicking)
    case _ => None
  }

  /** The latest event of processor i. */
  function LatestOf(es: seq<Event>, i: nat): Option<nat> {
    if es == [] then None
    else if es[|es| - 1].i == i then Some(|es| - 1)
    else LatestOf(es[..|es| - 1], i)
  }

  lemma SwitchBack(s: Sys, e: Event)
    requires Legal(s, e) && Control(s.procs[e.i], s.heap) && YieldOf(e).Some?
    ensures e.i < |Apply(s, e).procs|
    ensures var p, p' := s.procs[e.i], Apply(s, e).procs[e.i];
      HasHdl(p.pc) && p'.pc == Returned(p.pc.hdl) && p'.lastResult == YieldOf(e) && p.curRunning == Some(p.pc.hdl)
  {
  }

  lemma NoSwitchBack(s: Sys, e: Event)
    requires Legal(s, e) && YieldOf(e).None? && !e.Trail?
    ensures e.i < |Apply(s, e).procs| && !Apply(s, e).procs[e.i].pc.Returned?
  {
  }

  /** The trailing loop of coroutine_initialize is unreachable. */
  lemma TrailingLoopUnreachable(n: nat, es: seq<Event>, s: Sys, i: nat)
    requires Exec(Init(n), es) == Some(s)
    ensures !Enabled(s, Trail(i))
  {
    var w := RunInv(n, es);
    if i < |s.procs| {
      NoTrail(s, i);
    }
  }

  lemma NoTrail(s: Sys, i: nat)
    requires i < |s.procs| && Control(s.procs[i], s.heap)
    ensures !Enabled(s, Trail(i))
  {
  }

  /** An event of processor i that leaves it in resume is that coroutine's yield. */
  lemma ResultStep(n: nat, init: seq<Event>, e: Event)
    requires Exec(Init(n), init).Some? && Legal(Exec(Init(n), init).value, e)
    requires Apply(Exec(Init(n), init).value, e).procs[e.i].pc.Returned?
    ensures var m := Exec(Init(n), init).value; var p' := Apply(m, e).procs[e.i];
      YieldOf(e).Some? && p'.lastResult == YieldOf(e) && m.procs[e.i].curRunning == Some(p'.pc.hdl)
  {
    var m := Exec(Init(n), init).value;
    var w := RunInv(n, init);
    assert Control(m.procs[e.i], m.heap);
    TrailingLoopUnreachable(n, init, m, e.i);
    if YieldOf(e).Some? {
      SwitchBack(m, e);
    } else {
      NoSwitchBack(m, e);
    }
  }

  /** Whenever a processor is back on main_coro inside resume, last_result holds the value
      of the latest yield, made by the very coroutine that resume was called with: the
      default of resume is never used and no result reaches another coroutine. */
  lemma {:induction false} ResultIsOwn(n: nat, es: seq<Event>, s: Sys, i: nat)
    requires Exec(Init(n), es) == Some(s) && i < |s.procs| && s.procs[i].pc.Returned?
    ensures LatestOf(es, i).Some?
    ensures var p, k := s.procs[i], LatestOf(es, i).value;
      && k < |es| && YieldOf(es[k]).Some? && p.lastResult == YieldOf(es[k])
      && Exec(Init(n), es[..k]).Some? && i < |Exec(Init(n), es[..k]).value.procs|
      && Exec(Init(n), es[..k]).value.procs[i].curRunning == Some(p.pc.hdl)
  {
    var init, e := es[..|es| - 1], es[|es| - 1];
    HeapStep(Exec(Init(n), init).value, e);
    if e.i == i {
      ResultStep(n, init, e);
    } else {
      ResultIsOwn(n, init, Exec(Init(n), init).value, i);
      var k := LatestOf(init, i).value;
      assert init[..k] == es[..k];
    }
  }

  lemma ControlRegisters(p: Proc, heap: map<Ptr, Coroutine>)
    requires Control(p, heap)
    ensures p.pc.Executing? || p.pc.Counted? || p.pc.InWait? <==> p.curRunning.Some?
    ensures p.curRunning.Some? ==> p.curRunning.value == p.pc.hdl && p.lastResult.None? && p.newSpawned.None?
    ensures p.lastResult.Some? <==> p.pc.Returned?
  {
  }

  /** While a coroutine executes, its processor knows it as the running one, holds no
      result yet and has no pending child; so no yield is lost and no child overwritten. */
  lemma ExecutionIsClean(n: nat, es: seq<Event>, s: Sys, i: nat)
    requires Exec(Init(n), es) == Some(s) && i < |s.procs|
    ensures var p := s.procs[i];
      && (p.pc.Executing? || p.pc.Counted? || p.pc.InWait? <==> p.curRunning.Some?)
      && (p.curRunning.Some? ==> p.curRunning.value == p.pc.hdl && p.lastResult.None? && p.newSpawned.None?)
  {
    var w := RunInv(n, es);
    ControlRegisters(s.procs[i], s.heap);
  }

  /** A result is present exactly between the switch back to main_coro and its taking. */
  lemma ResultIsThere(n: nat, es: seq<Event>, s: Sys, i: nat)
    requires Exec(Init(n), es) == Some(s) && i < |s.procs|
    ensures s.procs[i].lastResult.Some? <==> s.procs[i].pc.Returned?
  {
    var w := RunInv(n, es);
    ControlRegisters(s.procs[i], s.heap);
  }

  /** The function of coroutine number id has returned or panicked. */
  ghost predicate Over(s: Sys, id: nat) {
    && id < |s.births|
    && (id in s.freed || (s.births[id] in s.heap && s.heap[s.births[id]].id == id && s.heap[s.births[id]].returned))
  }

  lemma OverStep(s: Sys, e: Event, id: nat)
    requires Registered(s) && Legal(s, e) && Over(s, id)
    ensures Over(Apply(s, e), id)
  {
    if Creates(e) {
      assert Apply(s, e).freed == s.freed && Apply(s, e).births == s.births + [e.ptr];
    } else if e.Free? {
      assert Apply(s, e).freed == s.freed + [s.heap[s.procs[e.i].pc.hdl].id];
    } else {
      HeapFrame(s, e);
      ReturnedStays(s, e);
    }
  }

  lemma ReturnedStays(s: Sys, e: Event)
    requires Legal(s, e) && !Creates(e) && !e.Free?
    ensures forall h :: h in s.heap && s.heap[h].returned ==> h in Apply(s, e).heap && Apply(s, e).heap[h].returned
  {
  }

  /** The birth number of the coroutine that processor i executes. */
  function RunningId(s: Sys, i: nat): Option<nat> {
    if i < |s.procs| && s.procs[i].pc.Executing? && s.procs[i].pc.hdl in s.heap
    then Some(s.heap[s.procs[i].pc.hdl].id) else None
  }

  lemma {:induction false} OverStays(n: nat, es: seq<Event>, k: nat, id: nat)
    requires k <= |es| && Exec(Init(n), es).Some? && Exec(Init(n), es[..k]).Some?
    requires Over(Exec(Init(n), es[..k]).value, id)
    ensures Over(Exec(Init(n), es).value, id)
  {
    if k == |es| {
      assert es[..k] == es;
    } else {
      var init, e := es[..|es| - 1], es[|es| - 1];
      assert init[..k] == es[..k];
      OverStays(n, init, k, id);
      var w := RunInv(n, init);
      OverStep(Exec(Init(n), init).value, e, id);
    }
  }

  lemma EndsNow(s: Sys, e: Event)
    requires Registered(s) && Legal(s, e) && Ends(e)
    ensures RunningId(s, e.i).Some? && Over(Apply(s, e), RunningId(s, e.i).value)
  {
    var h := s.procs[e.i].pc.hdl;
    assert Apply(s, e).heap[h] == s.heap[h].(returned := true);
  }

  lemma OverNotRunning(s: Sys, w: map<Ptr, Place>, id: nat, i: nat)
    requires Inv(s, w) && Over(s, id)
    ensures RunningId(s, i) != Some(id)
  {
    if i < |s.procs| {
      assert Registered(s) && Control(s.procs[i], s.heap);
    }
  }

  /** A coroutine that ends, by return or panic at event k, is never executed again by any
      processor: not even after its address has been handed out to another coroutine. */
  lemma EndIsFinal(n: nat, es: seq<Event>, k: nat, m: Sys, s: Sys, id: nat, i: nat)
    requires k < |es| && Exec(Init(n), es[..k]) == Some(m) && Exec(Init(n), es) == Some(s)
    requires Ends(es[k]) && RunningId(m, es[k].i) == Some(id)
    ensures RunningId(s, i) != Some(id)
  {
    StepAt(Init(n), es, k);
    var w := RunInv(n, es[..k]);
    EndsNow(m, es[k]);
    OverStays(n, es, k + 1, id);
    var w' := RunInv(n, es);
    OverNotRunning(s, w', id, i);
  }

  /** A coroutine number leaves the heap only after its function ended, and is dropped
      once: what is freed was over, and freed numbers never repeat. */
  lemma FreedWasOver(n: nat, es: seq<Event>, s: Sys, i: nat)
    requires Exec(Init(n), es) == Some(s) && Legal(s, Free(i))
    ensures var h, s' := s.procs[i].pc.hdl, Apply(s, Free(i));
      && Over(s, s.heap[h].id) && s.heap[h].id !in s.freed
      && s'.freed == s.freed + [s.heap[h].id] && h !in s'.heap && !Enabled(s', Free(i))
  {
    var w := RunInv(n, es);
    FreedEnded(s, i);
  }

  lemma FreedEnded(s: Sys, i: nat)
    requires Registered(s) && Legal(s, Free(i)) && Control(s.procs[i], s.heap)
    ensures var h, s' := s.procs[i].pc.hdl, Apply(s, Free(i));
      && Over(s, s.heap[h].id) && s.heap[h].id !in s.freed
      && s'.freed == s.freed + [s.heap[h].id] && h !in s'.heap && !Enabled(s', Free(i))
  {
  }

  /** An event of a processor that holds a child in new_spawned. */
  lemma SlotStep(s: Sys, e: Event)
    requires Legal(s, e) && Control(s.procs[e.i], s.heap)
    requires s.procs[e.i].newSpawned.Some? && !Boots(s.procs[e.i])
    ensures var s' := Apply(s, e); var p, p' := s.procs[e.i], s'.procs[e.i];
      if e.Drain? then
        p'.pc == Executing(p.newSpawned.value) && p'.newSpawned.None?
      else
        && (e.Handle? || e.Push?) && p'.newSpawned == p.newSpawned
        && !p'.pc.Executing? && !Boots(p')
        && (e.Handle? ==> p'.pc == Pushing(p.pc.hdl, None))
        && (e.Push? && p'.pc.Draining? ==> s'.queue == s.queue + [p.pc.hdl])
  {
  }
}
