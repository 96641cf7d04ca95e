/** What one processor does over a stretch of a run while the others do whatever they do:
    it dispatches a batch of events, and it hands a spawned child over. */
module Segments {
  import opened Basics
  import opened Protocol
  import opened Ownership
  import opened Safety
  import opened LifeCycle
  import opened Fairness
  import opened Wakeups

  /** What an event of processor i adds to the queue. */
  function PushedBy(s: Sys, e: Event, i: nat): seq<Ptr>
    requires Enabled(s, e)
  {
    if e == Push(i) && |s.queue| < GLOBAL_QUEUE_SIZE then [s.procs[i].pc.hdl] else []
  }

  /** Everything that processor i pushes during a run, in order. */
  function PushesBy(s: Sys, es: seq<Event>, i: nat): seq<Ptr>
    requires Exec(s, es).Some?
  {
    if es == [] then [] else
      var init := es[..|es| - 1];
      PushesBy(s, init, i) + PushedBy(Exec(s, init).value, es[|es| - 1], i)
  }

  /** Everything that processor i resumes during a run, in order. */
  function ResumptionsBy(s: Sys, es: seq<Event>, i: nat): seq<Ptr>
    requires Exec(s, es).Some?
  {
    if es == [] then [] else
      var init, e := es[..|es| - 1], es[|es| - 1];
      var r := ResumedBy(Exec(s, init).value, e);
      ResumptionsBy(s, init, i) + if e.i == i && r.Some? then [r.value] else []
  }

  predicate Pops(es: seq<Event>, i: nat) {
    Pop(i) in es
  }

  // ---- a batch of events -------------------------------------------------------------

  /** Every coroutine waits under one token only. */
  lemma SlabIsInjective(n: nat, es: seq<Event>, s: Sys, i: nat)
    requires Exec(Init(n), es) == Some(s) && i < |s.procs|
    ensures Injective(s.procs[i].slab)
  {
    var w := RunInv(n, es);
    assert ProcPlaced(s.procs[i], i, w);
  }

  /** Processor i is handing out the events of a batch. */
  predicate InBatch(p: Proc) {
    p.pc.Dispatching? || (p.pc.Pushing? && p.pc.rest.Some?)
  }

  /** Processor i is inside its batch from the first state of the run to the last but one. */
  ghost predicate BatchRuns(s: Sys, es: seq<Event>, i: nat)
    requires Exec(s, es).Some? && i < |s.procs|
    decreases |es|
  {
    es != [] ==>
      var init := es[..|es| - 1];
      i < |Exec(s, init).value.procs| && InBatch(Exec(s, init).value.procs[i]) && BatchRuns(s, init, i)
  }

  /** What processor p has still to wake, and what will be left in its slab. */
  function Outstanding(p: Proc): seq<Ptr> {
    match p.pc
    case Dispatching(rest) => Woken(p.slab, rest)
    case Pushing(h, Some(rest)) => [h] + Woken(p.slab, rest)
    case _ => []
  }

  function LeftOver(p: Proc): map<Token, Ptr> {
    match p.pc
    case Dispatching(rest) => Remaining(p.slab, rest)
    case Pushing(_, Some(rest)) => Remaining(p.slab, rest)
    case _ => p.slab
  }

  lemma DispatchOne(p: Proc, t: Token, rest: seq<Token>)
    requires p.pc == Dispatching([t] + rest)
    ensures var p' := if t in p.slab then p.(pc := Pushing(p.slab[t], Some(rest)), slab := p.slab - {t})
                      else p.(pc := Dispatching(rest));
      Outstanding(p) == Outstanding(p') && LeftOver(p) == LeftOver(p')
  {
    RemainingStep(p.slab, [t] + rest);
    assert ([t] + rest)[1..] == rest;
    WokenStep(p.slab, t, rest);
    if t !in p.slab {
      assert p.slab - {t} == p.slab;
    }
  }

  lemma DispatchNone(p: Proc)
    requires p.pc == Dispatching([])
    ensures Outstanding(p) == [] && LeftOver(p) == p.slab
  {
    assert Remaining(p.slab, []) == p.slab;
  }

  /** A step inside the batch moves coroutines from what is outstanding to the queue, and
      the events of other processors do not interfere. */
  lemma BatchStep(s: Sys, e: Event, i: nat)
    requires Legal(s, e) && i < |s.procs| && InBatch(s.procs[i])
    ensures var p, p' := s.procs[i], Apply(s, e).procs[i];
      && Outstanding(p) == PushedBy(s, e, i) + Outstanding(p') && LeftOver(p) == LeftOver(p')
      && (InBatch(p') || p'.pc.Draining?)
  {
    hide Woken, Remaining;
    var p := s.procs[i];
    if e == Dispatch(i) {
      if p.pc.batch == [] {
        DispatchNone(p);
      } else {
        assert p.pc.batch == [p.pc.batch[0]] + p.pc.batch[1..];
        DispatchOne(p, p.pc.batch[0], p.pc.batch[1..]);
      }
    } else if e != Push(i) {
      assert e.i != i;
    }
  }

  lemma Regroup<T>(a: seq<T>, b: seq<T>, c: seq<T>)
    ensures a + (b + c) == (a + b) + c
  {
  }

  lemma {:induction false} BatchAccount(s: Sys, es: seq<Event>, i: nat)
    requires Exec(s, es).Some? && i < |s.procs| && InBatch(s.procs[i]) && BatchRuns(s, es, i)
    ensures i < |Exec(s, es).value.procs|
    ensures var p, p' := s.procs[i], Exec(s, es).value.procs[i];
      && Outstanding(p) == PushesBy(s, es, i) + Outstanding(p') && LeftOver(p) == LeftOver(p')
      && (InBatch(p') || p'.pc.Draining?)
  {
    hide Outstanding, LeftOver, PushedBy, Apply;
    if es != [] {
      var init, e := es[..|es| - 1], es[|es| - 1];
      BatchAccount(s, init, i);
      var m := Exec(s, init).value;
      BatchStep(m, e, i);
      assert PushesBy(s, es, i) == PushesBy(s, init, i) + PushedBy(m, e, i);
      Regroup(PushesBy(s, init, i), PushedBy(m, e, i), Outstanding(Apply(m, e).procs[i]));
    }
  }

  /** Wake-up exactly once, for N processors and any interleaving: from the moment at which
      run_once delivers a batch to processor i until that processor has handed it out, it
      queues exactly the coroutines whose tokens are in the batch, each once, and leaves
      every other entry of its slab alone; whatever happens elsewhere meanwhile. */
  lemma BatchWakesOnce(n: nat, es0: seq<Event>, s: Sys, es: seq<Event>, s': Sys, i: nat, batch: seq<Token>)
    requires Exec(Init(n), es0) == Some(s) && Exec(s, es) == Some(s') && i < |s.procs|
    requires s.procs[i].pc == Dispatching(batch) && BatchRuns(s, es, i)
    ensures i < |s'.procs| && (InBatch(s'.procs[i]) || s'.procs[i].pc.Draining?)
    ensures NoDup(Woken(s.procs[i].slab, batch)) && PushesBy(s, es, i) <= Woken(s.procs[i].slab, batch)
    ensures s'.procs[i].pc.Draining? ==>
      && PushesBy(s, es, i) == Woken(s.procs[i].slab, batch)
      && s'.procs[i].slab == Remaining(s.procs[i].slab, batch)
  {
    hide Woken, Remaining, Apply, Exec, BatchRuns;
    BatchAccount(s, es, i);
    SlabIsInjective(n, es0, s, i);
    WokenOnce(s.procs[i].slab, batch);
  }

  // ---- the hand-over of a child ----------------------------------------------------------

  /** The parent that processor p has yet to queue. */
  function Owed(p: Proc): seq<Ptr> {
    match p.pc
    case Returned(h) => [h]
    case Pushing(h, None) => [h]
    case _ => []
  }

  /** Processor i holds the child c and has not got to it. */
  ghost predicate HoldsChild(s: Sys, i: nat, c: Ptr) {
    i < |s.procs| && s.procs[i].newSpawned == Some(c) && !Boots(s.procs[i])
  }

  lemma HandOverStep(s: Sys, e: Event, i: nat, c: Ptr)
    requires Legal(s, e) && HoldsChild(s, i, c) && Control(s.procs[i], s.heap)
    ensures e != Pop(i)
    ensures var s' := Apply(s, e); var r := ResumedBy(s, e);
      if e.i == i && r.Some? then r == Some(c) && Owed(s.procs[i]) == []
      else HoldsChild(s', i, c) && Owed(s.procs[i]) == PushedBy(s, e, i) + Owed(s'.procs[i])
  {
    if e.i == i {
      SlotStep(s, e);
    }
  }

  /** The one-slot hand-off, over any stretch of a run. Processor i holds the child c of a
      coroutine it ran. Until it resumes something it still holds c, pops nothing and pushes
      nothing but the parent; and what it resumes first is c, after the parent was queued. */
  lemma {:induction false} ChildRunsNext(n: nat, es0: seq<Event>, s: Sys, es: seq<Event>, i: nat, c: Ptr)
    requires Exec(Init(n), es0) == Some(s) && Exec(s, es).Some? && HoldsChild(s, i, c)
    ensures ResumptionsBy(s, es, i) != [] ==> ResumptionsBy(s, es, i)[0] == c
    ensures ResumptionsBy(s, es, i) == [] ==>
      && !Pops(es, i) && HoldsChild(Exec(s, es).value, i, c)
      && Owed(s.procs[i]) == PushesBy(s, es, i) + Owed(Exec(s, es).value.procs[i])
    ensures ResumptionsBy(s, es, i) != [] ==> Owed(s.procs[i]) <= PushesBy(s, es, i)
  {
    hide Apply, Owed, PushedBy, Registers, SlotFits, Boots;
    if es != [] {
      var init, e := es[..|es| - 1], es[|es| - 1];
      ChildRunsNext(n, es0, s, init, i, c);
      assert es == init + [e];
      if ResumptionsBy(s, init, i) == [] {
        var m := Exec(s, init).value;
        ControlLater(n, es0, s, init, m, i);
        HandOverStep(m, e, i, c);
        HandOverAccount(s, init, e, i, m);
      }
    }
  }

  lemma HandOverAccount(s: Sys, init: seq<Event>, e: Event, i: nat, m: Sys)
    requires Exec(s, init) == Some(m) && Exec(s, init + [e]).Some?
    requires i < |m.procs| && i < |s.procs| && Owed(s.procs[i]) == PushesBy(s, init, i) + Owed(m.procs[i])
    ensures Legal(m, e) && Exec(s, init + [e]) == Some(Apply(m, e))
    ensures PushesBy(s, init + [e], i) == PushesBy(s, init, i) + PushedBy(m, e, i)
    ensures i < |Apply(m, e).procs| && Owed(m.procs[i]) == PushedBy(m, e, i) + Owed(Apply(m, e).procs[i])
      ==> Owed(s.procs[i]) == PushesBy(s, init + [e], i) + Owed(Apply(m, e).procs[i])
  {
    hide Apply, Owed, PushedBy;
    assert (init + [e])[..|init|] == init;
    if i < |Apply(m, e).procs| {
      Regroup(PushesBy(s, init, i), PushedBy(m, e, i), Owed(Apply(m, e).procs[i]));
    }
  }

  lemma ControlLater(n: nat, es0: seq<Event>, s: Sys, es: seq<Event>, m: Sys, i: nat)
    requires Exec(Init(n), es0) == Some(s) && Exec(s, es) == Some(m) && i < |m.procs|
    ensures Control(m.procs[i], m.heap)
  {
    var w0 := RunInv(n, es0);
    var w := SegmentInv(s, w0, es);
  }
}
