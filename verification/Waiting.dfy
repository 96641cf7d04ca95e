/** How many coroutines one thread can have parked: a wait panics exactly when the slab of
    its thread is full, and otherwise parks its coroutine. */
module Waiting {
  import opened Basics
  import opened Protocol
  import opened Ownership
  import opened Programs
  import opened Traces
  import opened Wakeups
  import opened Work
  import opened Population

  lemma SlabStays(s: Sys, e: Event)
    requires Legal(s, e) && !e.WaitInsert? && !e.Dispatch?
    ensures Apply(s, e).procs[e.i].slab == s.procs[e.i].slab
  {
  }

  lemma DispatchShrinks(s: Sys, i: nat)
    requires Enabled(s, Dispatch(i))
    ensures |Apply(s, Dispatch(i)).procs[i].slab| <= |s.procs[i].slab|
  {
    if s.procs[i].pc.batch != [] {
      RemoveCard(s.procs[i].slab, s.procs[i].pc.batch[0]);
    }
  }

  lemma InsertEffect(s: Sys, e: Event)
    requires e.WaitInsert? && Enabled(s, e)
    ensures var p, p' := s.procs[e.i], Apply(s, e).procs[e.i];
      p'.slab == p.slab[e.token := p.pc.hdl] && p'.pc.InWait? && e.token !in p.slab && |p.slab| < 102400
  {
  }

  lemma SlabGrows(s: Sys, e: Event)
    requires Legal(s, e)
    ensures |Apply(s, e).procs[e.i].slab| <= 102400 || |Apply(s, e).procs[e.i].slab| <= |s.procs[e.i].slab|
  {
    hide Apply, Enabled, Orderly;
    if e.Dispatch? {
      DispatchShrinks(s, e.i);
    } else if e.WaitInsert? {
      InsertEffect(s, e);
    } else {
      SlabStays(s, e);
    }
  }

  /** No slab ever has more than 102400 entries. */
  lemma {:induction false} SlabBounded(n: nat, es: seq<Event>, s: Sys, i: nat)
    requires Exec(Init(n), es) == Some(s) && i < |s.procs|
    ensures |s.procs[i].slab| <= 102400
  {
    if es != [] {
      hide Apply, Legal;
      var init, e := es[..|es| - 1], es[|es| - 1];
      var m := Exec(Init(n), init).value;
      SlabBounded(n, init, m, i);
      SlabGrows(m, e);
    }
  }

  /** What a performed wait is: a step of the coroutine, which either finds the slab full and
      panics or has itself parked. */
  ghost predicate Parks(w: World, m: Move, x: nat, threw: bool)
    requires CanMove(w, m)
  {
    && m.User? && InUser(w, m.i) && RunId(w, m.i) == x && w.sys.procs[m.i].pc.Executing?
    && var p, p' := w.sys.procs[m.i], Perform(w, m).sys.procs[m.i];
       if threw then |p.slab| >= 102400 && Perform(w, m).sys == w.sys && Perform(w, m).ctxs[x].unwinding
       else |p.slab| < 102400 && m.token !in p.slab && p'.slab == p.slab[m.token := p.pc.hdl] && p'.pc.InWait?
  }

  lemma WaitStep(c: Ctx, p: Proc, locked: bool, data: int, m: Move)
    requires m.User? && Sound(c) && !c.ended && (p.pc.Counted? ==> AtSpawn(c))
    requires c.k < |c.script| && c.script[c.k].Wait? && Behave(c, p, locked, data, m).done
    ensures var st := Behave(c, p, locked, data, m);
      && !p.pc.InWait? && !p.pc.Counted? && !c.unwinding && (st.ctx.unwinding <==> |p.slab| >= 102400)
      && st.event == if st.ctx.unwinding then None else Some(WaitInsert(m.i, m.token))
  {
  }

  lemma WaitParks(w: World, m: Move, x: nat, threw: bool)
    requires Good(w) && CanMove(w, m) && Perform(w, m).trace == w.trace + [Did(x, Wait, threw)]
    ensures Parks(w, m, x, threw)
  {
    hide Behave, Apply, Good, Enabled, Orderly;
    assert |Perform(w, m).trace| == |w.trace| + 1 && Perform(w, m).trace[|w.trace|] == Did(x, Wait, threw);
    if m.User? {
      CodeIsDefined(w, m);
      WaitStep(w.ctxs[RunId(w, m.i)], w.sys.procs[m.i], w.locked, w.data, m);
      if !threw {
        InsertEffect(w.sys, WaitInsert(m.i, m.token));
      }
    }
  }

  lemma CodeIsDefined(w: World, m: Move)
    requires Good(w) && CanMove(w, m) && m.User?
    ensures var c := w.ctxs[RunId(w, m.i)];
      Sound(c) && !c.ended && (w.sys.procs[m.i].pc.Counted? ==> AtSpawn(c))
  {
    hide Placed, Controlled, Booting, Accounted, Traced;
    var pl :| Inv(w.sys, pl);
    RunnerReady(w, m.i);
  }

  // ---- who is parked ------------------------------------------------------------------------

  lemma {:induction false} InjectiveFits(slab: map<Token, Ptr>, into: set<Ptr>)
    requires Injective(slab) && forall t :: t in slab ==> slab[t] in into
    ensures |slab| <= |into|
  {
    if t :| t in slab {
      RemoveCard(slab, t);
      InjectiveFits(slab - {t}, into - {slab[t]});
    } else {
      assert slab == map[];
    }
  }

  /** The coroutines in a slab are different ones, live, and other than the one that runs. */
  lemma ParkedAreOthers(s: Sys, pl: map<Ptr, Place>, i: nat)
    requires Placed(s, pl) && i < |s.procs| && s.procs[i].pc.Executing?
    ensures Injective(s.procs[i].slab)
    ensures forall t :: t in s.procs[i].slab ==> s.procs[i].slab[t] in s.heap && s.procs[i].slab[t] != s.procs[i].pc.hdl
    ensures |s.procs[i].slab| < |s.heap|
  {
    var slab, h := s.procs[i].slab, s.procs[i].pc.hdl;
    assert ProcPlaced(s.procs[i], i, pl);
    InjectiveFits(slab, s.heap.Keys - {h});
    assert |s.heap.Keys - {h}| == |s.heap.Keys| - 1;
  }

  /** What a wait finds and leaves: it panics exactly when 102400 other coroutines are parked
      on its thread; then nothing else happens, and otherwise its coroutine is in the slab,
      under a token that nobody else waits for. */
  ghost predicate Settles(w: World, m: Move, x: nat, threw: bool)
    requires CanMove(w, m) && m.User?
  {
    var p, s' := w.sys.procs[m.i], Perform(w, m).sys;
    && RunId(w, m.i) == x && p.pc.Executing?
    && Injective(p.slab) && (forall t :: t in p.slab ==> p.slab[t] in w.sys.heap && p.slab[t] != p.pc.hdl)
    && (threw <==> |p.slab| == 102400) && (threw ==> s' == w.sys)
    && (!threw ==> m.token !in p.slab && s'.procs[m.i].slab == p.slab[m.token := p.pc.hdl])
  }

  lemma WaitSettles(w: World, pl: map<Ptr, Place>, m: Move, x: nat, threw: bool)
    requires CanMove(w, m) && m.User? && Parks(w, m, x, threw) && Placed(w.sys, pl) && |w.sys.procs[m.i].slab| <= 102400
    ensures Settles(w, m, x, threw) && |w.sys.procs[m.i].slab| < |w.sys.heap|
  {
    hide Perform, Placed;
    ParkedAreOthers(w.sys, pl, m.i);
  }

  lemma SlabOfRun(n: nat, data: int, ms: seq<Move>, w: World, i: nat)
    requires Play(Boot(n, data), ms) == Some(w) && i < |w.sys.procs|
    ensures |w.sys.procs[i].slab| <= 102400
  {
    PlayRefines(Boot(n, data), ms);
    SlabBounded(n, EventsOf(Boot(n, data), ms), w.sys, i);
  }

  /** Every wait that is performed, in every run on any number of processors. */
  lemma WaitThrowsIff(n: nat, data: int, ms: seq<Move>, w: World, m: Move, x: nat, threw: bool)
    requires Play(Boot(n, data), ms) == Some(w) && CanMove(w, m)
    requires Perform(w, m).trace == w.trace + [Did(x, Wait, threw)]
    ensures m.User? && Settles(w, m, x, threw) && |w.sys.procs[m.i].slab| < |w.sys.heap|
  {
    hide Play, Perform, CanMove, Placed, Controlled, Booting, Accounted, Registered, Shaped, Traced, Settles;
    PlayGood(n, data, ms);
    WaitParks(w, m, x, threw);
    SlabOfRun(n, data, ms, w, m.i);
    var pl :| Inv(w.sys, pl);
    WaitSettles(w, pl, m, x, threw);
  }

  /** A move adds at most one entry to the trace, and takes away no coroutine. */
  lemma TraceStep(w: World, m: Move)
    requires CanMove(w, m)
    ensures Perform(w, m).trace == w.trace || exists e :: Perform(w, m).trace == w.trace + [e]
    ensures |w.ctxs| <= |Perform(w, m).ctxs|
  {
    hide Behave, Apply;
    if m.Launch? {
      assert Perform(w, m).trace == w.trace + [Root(m.script)];
    } else if m.User? && Perform(w, m).trace != w.trace {
      assert Perform(w, m).trace == w.trace + [Deed(RunId(w, m.i), w.ctxs[RunId(w, m.i)], StepOf(w, m).ctx)];
    }
  }

  ghost predicate NoWaitThrew(trace: seq<Entry>) {
    forall k :: 0 <= k < |trace| && trace[k].Did? && trace[k].action.Wait? ==> !trace[k].threw
  }

  lemma AliveOfGood(w: World)
    requires Good(w)
    ensures |w.sys.heap| <= |w.ctxs|
  {
    hide Placed, Controlled, Booting, Accounted, Traced;
    var pl :| Inv(w.sys, pl);
    LiveAmongBorn(w.sys);
  }

  /** In plain numbers: where at most 102400 coroutines are ever born, no wait panics. */
  lemma {:induction false} WaitsSucceed(n: nat, data: int, ms: seq<Move>, w: World)
    requires Play(Boot(n, data), ms) == Some(w) && |w.ctxs| <= 102400
    ensures NoWaitThrew(w.trace)
  {
    if ms != [] {
      hide Perform, CanMove, Good, Settles;
      var init, m := ms[..|ms| - 1], ms[|ms| - 1];
      var v := Play(Boot(n, data), init).value;
      TraceStep(v, m);
      WaitsSucceed(n, data, init, v);
      PlayGood(n, data, init);
      AliveOfGood(v);
      if w.trace != v.trace {
        var e :| w.trace == v.trace + [e];
        if e.Did? && e.action.Wait? {
          WaitThrowsIff(n, data, init, v, m, e.id, e.threw);
          FullMeansMany(v, m, e.id, e.threw);
        }
      }
    }
  }

  lemma FullMeansMany(w: World, m: Move, x: nat, threw: bool)
    requires CanMove(w, m) && m.User? && Settles(w, m, x, threw) && |w.sys.procs[m.i].slab| < |w.sys.heap| <= 102400
    ensures !threw
  {
  }
}
