/** How runs that start with one launched script end. */
module Endings {
  import opened Basics
  import opened Protocol
  import opened Ownership
  import opened Invariant
  import opened Safety
  import opened Fairness
  import opened Programs
  import opened Traces
  import opened MutexLaws

  /** Some thread has entered schedule. */
  ghost predicate Entered(s: Sys) {
    exists i :: 0 <= i < |s.procs| && !s.procs[i].pc.Outside? && !s.procs[i].pc.TopCounted?
  }

  /** Until a thread has entered schedule, a coroutine once born is still there; and nothing
      is born before the top-level spawn under way. */
  ghost predicate Pristine(s: Sys) {
    && (s.births != [] ==> s.heap != map[] || Entered(s))
    && (forall i :: 0 <= i < |s.procs| && s.procs[i].pc.TopCounted? ==> s.births == [])
  }

  lemma EnteredEffect(s: Sys, e: Event)
    requires Legal(s, e) && !e.TopCount? && !e.TopCreate?
    ensures !Apply(s, e).procs[e.i].pc.Outside? && !Apply(s, e).procs[e.i].pc.TopCounted?
  {
  }

  lemma TopEffect(s: Sys, e: Event)
    requires Legal(s, e) && (e.TopCount? || e.TopCreate?)
    ensures s.procs[e.i].pc.Outside? || s.procs[e.i].pc.TopCounted?
    ensures Apply(s, e).procs[e.i].pc.TopCounted? <==> e.TopCount?
    ensures e.TopCount? ==> Apply(s, e).births == s.births
  {
  }

  lemma BirthsStay(s: Sys, e: Event)
    requires Legal(s, e) && !Creates(e)
    ensures Apply(s, e).births == s.births
  {
    if !e.Free? {
      HeapFrame(s, e);
    }
  }

  lemma EnteredStays(s: Sys, e: Event)
    requires Legal(s, e)
    ensures Entered(s) ==> Entered(Apply(s, e))
    ensures !e.TopCount? && !e.TopCreate? ==> Entered(Apply(s, e))
    ensures Apply(s, e).procs[e.i].pc.TopCounted? <==> e.TopCount?
    ensures !Creates(e) ==> Apply(s, e).births == s.births
  {
    hide Apply;
    if e.TopCount? || e.TopCreate? {
      TopEffect(s, e);
    } else {
      EnteredEffect(s, e);
    }
    if !Creates(e) {
      BirthsStay(s, e);
    }
    if Entered(s) {
      var i :| 0 <= i < |s.procs| && !s.procs[i].pc.Outside? && !s.procs[i].pc.TopCounted?;
      if i != e.i {
        assert Apply(s, e).procs[i] == s.procs[i];
      } else {
        assert !Apply(s, e).procs[i].pc.Outside? && !Apply(s, e).procs[i].pc.TopCounted?;
      }
    } else if !e.TopCount? && !e.TopCreate? {
      assert !Apply(s, e).procs[e.i].pc.Outside? && !Apply(s, e).procs[e.i].pc.TopCounted?;
    }
  }

  lemma PristineTop(s: Sys, w: map<Ptr, Place>, e: Event)
    requires Inv(s, w) && Pristine(s) && Legal(s, e) && (e.TopCount? || e.TopCreate?)
    ensures Pristine(Apply(s, e))
  {
    hide Placed, Controlled, Accounted, Registered;
    if e.TopCount? {
      FreshStart(s, w);
      assert Apply(s, e).heap == s.heap && Apply(s, e).births == s.births;
    } else {
      assert e.ptr in Apply(s, e).heap;
      assert s.procs[e.i].pc.TopCounted? && Booting(s);
    }
  }

  lemma PristineStep(s: Sys, w: map<Ptr, Place>, e: Event)
    requires Inv(s, w) && Pristine(s) && Legal(s, e)
    ensures Pristine(Apply(s, e))
  {
    hide Inv, Apply;
    if e.TopCount? || e.TopCreate? {
      PristineTop(s, w, e);
    } else {
      EnteredStays(s, e);
      if e.SpawnCreate? {
        assert HasHdl(s.procs[e.i].pc);
        NoneBoots(s, w, e.i);
      }
    }
  }

  lemma {:induction false} RunPristine(n: nat, es: seq<Event>)
    requires Exec(Init(n), es).Some?
    ensures Pristine(Exec(Init(n), es).value)
  {
    if es != [] {
      var init := es[..|es| - 1];
      RunPristine(n, init);
      var w := RunInv(n, init);
      PristineStep(Exec(Init(n), init).value, w, es[|es| - 1]);
    }
  }

  lemma {:induction false} BornCounts(trace: seq<Entry>)
    requires forall k :: 0 <= k < |trace| ==> trace[k].Root?
    ensures |Born(trace)| == |trace|
  {
    if trace != [] {
      assert trace[|trace| - 1].Root?;
      BornCounts(trace[..|trace| - 1]);
    }
  }

  /** Only the first entry of a trace is a launch. */
  predicate OneRoot(trace: seq<Entry>) {
    forall k :: 0 < k < |trace| ==> trace[k].Did?
  }

  /** Whoever launches finds that nothing has been born. */
  lemma NoneBorn(w: World, m: Move)
    requires Pristine(w.sys) && Good(w) && CanMove(w, m) && m.Launch? && OneRoot(w.trace)
    ensures w.trace == []
  {
    hide Apply, Inv;
    assert |w.ctxs| == 0 && |Scripts(w.ctxs)| == 0;
    if w.trace != [] {
      BornCounts(w.trace);
    }
  }

  /** The one top-level spawn comes before everything else. */
  lemma LaunchIsFirst(n: nat, data: int, ms: seq<Move>, w: World, m: Move)
    requires Play(Boot(n, data), ms) == Some(w) && CanMove(w, m) && m.Launch? && OneRoot(w.trace)
    ensures w.trace == []
  {
    PlayRefines(Boot(n, data), ms);
    RunPristine(n, EventsOf(Boot(n, data), ms));
    PlayGood(n, data, ms);
    NoneBorn(w, m);
  }

  lemma {:induction false} TraceHasOneRoot(n: nat, data: int, ms: seq<Move>)
    requires Play(Boot(n, data), ms).Some?
    ensures OneRoot(Play(Boot(n, data), ms).value.trace)
  {
    if ms != [] {
      var init, m := ms[..|ms| - 1], ms[|ms| - 1];
      TraceHasOneRoot(n, data, init);
      if m.Launch? {
        LaunchIsFirst(n, data, init, Play(Boot(n, data), init).value, m);
      }
    }
  }

  /** Every launch of a run is the one that its trace begins with. */
  lemma LaunchIsRoot(n: nat, data: int, ms: seq<Move>, k: nat)
    requires Play(Boot(n, data), ms).Some? && k < |ms| && ms[k].Launch?
    ensures var trace := Play(Boot(n, data), ms).value.trace; trace != [] && trace[0] == Root(ms[k].script)
  {
    hide Apply, Behave;
    var w := Boot(n, data);
    PlayPrefix(w, ms, k + 1);
    assert ms[..k + 1][..k] == ms[..k];
    TraceHasOneRoot(n, data, ms[..k]);
    LaunchIsFirst(n, data, ms[..k], Play(w, ms[..k]).value, ms[k]);
    TraceGrows(w, ms, k + 1);
  }

  lemma {:induction false} TraceGrows(w: World, ms: seq<Move>, k: nat)
    requires k <= |ms| && Play(w, ms).Some?
    ensures Play(w, ms[..k]).Some? && Play(w, ms[..k]).value.trace <= Play(w, ms).value.trace
  {
    if k == |ms| {
      assert ms[..k] == ms;
    } else {
      var init := ms[..|ms| - 1];
      TraceGrows(w, init, k);
      assert init[..k] == ms[..k];
    }
  }

  lemma {:induction false} LaunchedOnce(trace: seq<Entry>, script: seq<Action>)
    requires OneRoot(trace) && trace != [] && trace[0] == Root(script)
    ensures StoresLaunched(trace) == StoresIn(script)
  {
    if |trace| == 1 {
      assert trace[..0] == [];
    } else {
      LaunchedOnce(trace[..|trace| - 1], script);
    }
  }

  lemma {:induction false} BornFirst(trace: seq<Entry>, script: seq<Action>)
    requires trace != [] && trace[0] == Root(script)
    ensures Born(trace) != [] && Born(trace)[0] == script
  {
    if |trace| == 1 {
      assert trace[..0] == [];
    } else {
      BornFirst(trace[..|trace| - 1], script);
    }
  }

  /** Scripts that never yield inside a critical section, never panic and never wait. */
  predicate Tame(script: seq<Action>, held: bool)
    decreases script
  {
    script == [] ||
    var rest := script[1..];
    match script[0]
    case Yield => !held && Tame(rest, false)
    case Spawn(body) => !held && Tame(body, false) && Tame(rest, false)
    case Lock => !held && Tame(rest, true)
    case Unlock => held && Tame(rest, false)
    case Load => Tame(rest, held)
    case Store => Tame(rest, held)
    case _ => false
  }

  predicate TameCtx(c: Ctx) {
    c.k <= |c.script| && !c.unwinding && !c.poisoned && c.tries == 0 && c.guards <= 1 &&
    (c.dropping ==> c.guards == 0) && Tame(c.script[c.k..], c.guards > 0)
  }

  /** On one processor: whoever holds the lock is being executed. */
  ghost predicate HolderRuns(w: World) {
    |w.sys.procs| == 1 &&
    (forall id :: 0 <= id < |w.ctxs| ==> TameCtx(w.ctxs[id])) &&
    (w.locked ==> InUser(w, 0) && w.sys.procs[0].pc.Executing? && w.ctxs[RunId(w, 0)].guards == 1) &&
    (forall id :: 0 <= id < |w.ctxs| && w.ctxs[id].guards > 0 ==> w.locked && InUser(w, 0) && RunId(w, 0) == id)
  }

  lemma TameStep(c: Ctx, p: Proc, locked: bool, data: int, m: Move)
    requires m.User? && TameCtx(c) && (locked <==> c.guards == 1)
    requires (p.pc.Counted? ==> AtSpawn(c)) && (p.pc.InWait? ==> false)
    ensures var st := Behave(c, p, locked, data, m);
      && TameCtx(st.ctx) && (st.locked <==> st.ctx.guards == 1)
      && (st.locked ==> st.event.None? && !p.pc.Counted?)
      && (p.pc.Counted? ==> Tame(c.script[c.k].body, false))
      && (st.event.Some? ==> !st.event.value.WaitInsert?)
  {
    if c.k < |c.script| {
      assert c.script[c.k..][0] == c.script[c.k] && c.script[c.k..][1..] == c.script[c.k + 1..];
    }
  }

  /** The parts of HolderRuns that speak of continuations only. */
  lemma TameAfter(ctxs: seq<Ctx>, id: nat, c: Ctx, children: seq<Ctx>)
    requires id < |ctxs| && TameCtx(c) && forall j :: 0 <= j < |ctxs| ==> TameCtx(ctxs[j])
    requires forall j :: 0 <= j < |ctxs| && ctxs[j].guards > 0 ==> j == id
    requires children == [] || (|children| == 1 && Tame(children[0].script, false) &&
      children[0] == NewCtx(children[0].script))
    ensures var ctxs' := ctxs[id := c] + children;
      && (forall j :: 0 <= j < |ctxs'| ==> TameCtx(ctxs'[j]))
      && (forall j :: 0 <= j < |ctxs'| && ctxs'[j].guards > 0 ==> j == id)
  {
    if children != [] {
      assert children[0].script[0..] == children[0].script;
    }
  }

  lemma UserTame(w: World, m: Move)
    requires Registered(w.sys) && Shaped(w) && CanMove(w, m) && m.User? && HolderRuns(w) && NoneWaits(w.sys)
    ensures HolderRuns(Perform(w, m)) && NoneWaits(Perform(w, m).sys)
  {
    var id, st := RunId(w, m.i), StepOf(w, m);
    RunnerNotOver(w, m.i);
    BehaveInOrder(w.ctxs[id], w.sys.procs[0], w.locked, w.data, m);
    TameStep(w.ctxs[id], w.sys.procs[0], w.locked, w.data, m);
    TameAfter(w.ctxs, id, st.ctx, Newborn(w, m));
    if st.event.Some? {
      WaitsOnlyByInsert(w.sys, st.event.value);
    }
  }

  ghost predicate NoneWaits(s: Sys) {
    |s.procs| == 1 && !s.procs[0].pc.InWait?
  }

  lemma WaitsOnlyByInsert(s: Sys, e: Event)
    requires Legal(s, e) && NoneWaits(s) && !e.WaitInsert?
    ensures NoneWaits(Apply(s, e))
  {
  }

  lemma KernelTame(w: World, m: Move)
    requires CanMove(w, m) && !m.User? && HolderRuns(w) && NoneWaits(w.sys)
    requires m.Launch? ==> Tame(m.script, false)
    ensures HolderRuns(Perform(w, m)) && NoneWaits(Perform(w, m).sys)
  {
    KernelIsOutside(w.sys, EventOf(w, m).value);
    WaitsOnlyByInsert(w.sys, EventOf(w, m).value);
    if m.Launch? {
      assert m.script[0..] == m.script;
    }
  }

  /** On one processor, scripts that do not yield inside critical sections never fail to
      lock, so no coroutine of theirs ever panics. */
  lemma {:induction false} TameRun(start: int, ms: seq<Move>, w: World)
    requires Play(Boot(1, start), ms) == Some(w)
    requires forall k :: 0 <= k < |ms| && ms[k].Launch? ==> Tame(ms[k].script, false)
    ensures HolderRuns(w) && NoneWaits(w.sys)
  {
    if ms != [] {
      var init, m := ms[..|ms| - 1], ms[|ms| - 1];
      var v := Play(Boot(1, start), init).value;
      TameRun(start, init, v);
      PlayGood(1, start, init);
      assert Registered(v.sys);
      if m.User? {
        UserTame(v, m);
      } else {
        KernelTame(v, m);
      }
    }
  }

  /** The end of a clean run of one launched script on one processor. */
  ghost predicate Concluded(w: World, script: seq<Action>) {
    && w.sys.heap == map[] && w.sys.queue == [] && w.sys.workCount == 0
    && |w.ctxs| > 0 && w.ctxs[0].script == script && Scripts(w.ctxs) == Born(w.trace)
    && forall id :: 0 <= id < |w.ctxs| ==> Completed(Projection(w.trace, id), Throws(w.trace, id), w.ctxs[id].script)
  }

  /** The one processor has left its loop by the break, having launched the script. */
  predicate Returns(w: World, script: seq<Action>) {
    |w.sys.procs| == 1 && w.sys.procs[0].pc == Exited(true) && w.trace != [] && w.trace[0] == Root(script)
  }

  lemma CleanEnd(start: int, ms: seq<Move>, w: World, script: seq<Action>)
    requires Play(Boot(1, start), ms) == Some(w) && Returns(w, script)
    ensures Concluded(w, script)
  {
    hide Play, Exec;
    RunCompletes(1, start, ms, w);
    PlayGood(1, start, ms);
    PlayRefines(Boot(1, start), ms);
    RunReturns(1, EventsOf(Boot(1, start), ms), w.sys);
    BornFirst(w.trace, script);
    assert |Scripts(w.ctxs)| == |w.ctxs|;
  }

  /** ... in which, if the script is disciplined and nobody has panicked, every store in it
      and in all it spawns has counted. */
  lemma CleanTotal(start: int, ms: seq<Move>, w: World, script: seq<Action>)
    requires Play(Boot(1, start), ms) == Some(w) && Returns(w, script)
    requires Disciplined(script, false, false) && NonePanicked(w.ctxs)
    ensures w.data == start + StoresIn(script) && !w.locked
  {
    hide Play, Boot;
    forall k | 0 <= k < |ms| && ms[k].Launch? ensures ms[k].script == script {
      LaunchIsRoot(1, start, ms, k);
    }
    OneProcessorSafe(start, ms, w);
    EveryStoreCounts(1, start, ms, w);
    TraceHasOneRoot(1, start, ms);
    LaunchedOnce(w.trace, script);
  }

  /** ... and when the script is tame, nobody panics. */
  lemma TameTotal(start: int, ms: seq<Move>, w: World, script: seq<Action>)
    requires Play(Boot(1, start), ms) == Some(w) && Returns(w, script)
    requires Tame(script, false) && Disciplined(script, false, false)
    ensures w.data == start + StoresIn(script)
  {
    hide Play, Boot;
    forall k | 0 <= k < |ms| && ms[k].Launch? ensures ms[k].script == script {
      LaunchIsRoot(1, start, ms, k);
    }
    TameRun(start, ms, w);
    CleanTotal(start, ms, w, script);
  }

  /** A processor that stops with an I/O error leaves somebody parked. */
  lemma ErrorEnd(start: int, ms: seq<Move>, w: World)
    requires Play(Boot(1, start), ms) == Some(w) && |w.sys.procs| == 1 && w.sys.procs[0].pc == Exited(false)
    ensures w.sys.procs[0].slab != map[]
  {
    PlayGood(1, start, ms);
    var pl :| Inv(w.sys, pl);
    ErrorParked(w.sys.procs[0], w.sys.heap);
  }

  lemma ErrorParked(p: Proc, heap: map<Ptr, Coroutine>)
    requires Control(p, heap) && p.pc == Exited(false)
    ensures p.slab != map[]
  {
  }

  /** A processor whose push fails has more coroutines alive than the queue can hold. */
  lemma SpinningEnd(start: int, ms: seq<Move>, w: World)
    requires Play(Boot(1, start), ms) == Some(w) && |w.sys.procs| == 1
    requires w.sys.procs[0].pc.Pushing? && |w.sys.queue| >= GLOBAL_QUEUE_SIZE
    ensures |w.sys.heap| > GLOBAL_QUEUE_SIZE
  {
    PlayGood(1, start, ms);
    var pl :| Inv(w.sys, pl);
    HdlHome(w.sys, pl, 0);
    assert ProcPlaced(w.sys.procs[0], 0, pl);
    QueueFits(w.sys, pl, w.sys.procs[0].pc.hdl);
  }

  // ---- the program of test_mutex, for any numbers ----------------------------------------

  function Repeat(a: seq<Action>, n: nat): seq<Action> {
    if n == 0 then [] else a + Repeat(a, n - 1)
  }

  /** One round: lock, add one through the guard, drop the guard. */
  const ROUND: seq<Action> := [Lock, Load, Store, Unlock]

  function Counter(coroutines: nat, times: nat): seq<Action> {
    Repeat([Spawn(Repeat(ROUND, times))], coroutines)
  }

  /** Putting one action in front of a script. */
  lemma Cons(a: Action, rest: seq<Action>, held: bool, loaded: bool)
    ensures StoresIn([a] + rest) ==
      (match a case Store => 1 case Spawn(body) => StoresIn(body) case _ => 0) + StoresIn(rest)
    ensures a.Lock? && !held ==>
      && Tame([a] + rest, held) == Tame(rest, true)
      && Disciplined([a] + rest, held, loaded) == Disciplined(rest, true, false)
    ensures a.Unlock? && held ==>
      && Tame([a] + rest, held) == Tame(rest, false)
      && Disciplined([a] + rest, held, loaded) == Disciplined(rest, false, false)
    ensures a.Load? && held ==>
      && Tame([a] + rest, held) == Tame(rest, held)
      && Disciplined([a] + rest, held, loaded) == Disciplined(rest, held, true)
    ensures a.Store? && held && loaded ==>
      && Tame([a] + rest, held) == Tame(rest, held)
      && Disciplined([a] + rest, held, loaded) == Disciplined(rest, held, false)
  {
    assert ([a] + rest)[1..] == rest;
  }

  lemma {:induction false} RoundsTotal(times: nat)
    ensures Tame(Repeat(ROUND, times), false) && Disciplined(Repeat(ROUND, times), false, false)
    ensures StoresIn(Repeat(ROUND, times)) == times
  {
    if times > 0 {
      RoundsTotal(times - 1);
      var rest := Repeat(ROUND, times - 1);
      Cons(Unlock, rest, true, false);
      Cons(Store, [Unlock] + rest, true, true);
      Cons(Load, [Store] + ([Unlock] + rest), true, false);
      Cons(Lock, [Load] + ([Store] + ([Unlock] + rest)), false, false);
      assert ROUND + rest == [Lock] + ([Load] + ([Store] + ([Unlock] + rest)));
    }
  }

  lemma {:induction false} CounterTotal(coroutines: nat, times: nat)
    ensures Tame(Counter(coroutines, times), false) && Disciplined(Counter(coroutines, times), false, false)
    ensures StoresIn(Counter(coroutines, times)) == coroutines * times
  {
    if coroutines > 0 {
      CounterTotal(coroutines - 1, times);
      RoundsTotal(times);
      assert Counter(coroutines, times)[1..] == Counter(coroutines - 1, times);
      assert coroutines * times == (coroutines - 1) * times + times;
    }
  }
}
