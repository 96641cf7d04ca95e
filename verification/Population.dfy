/** How many coroutines a launched script can bring about, and how many of them can be alive
    at once on one processor; and scripts whose processors never have anybody parked. */
module Population {
  import opened Basics
  import opened Protocol
  import opened Ownership
  import opened Invariant
  import opened Programs
  import opened Traces
  import opened MutexLaws
  import opened Work
  import opened Endings

  // ---- all coroutines of a run -----------------------------------------------------------

  /** The number of spawns in a script, those of spawned scripts included. */
  function SpawnsIn(script: seq<Action>): nat
    decreases script
  {
    if script == [] then 0 else
      (match script[0] case Spawn(body) => 1 + SpawnsIn(body) case _ => 0) + SpawnsIn(script[1..])
  }

  ghost predicate InRange(ctxs: seq<Ctx>) {
    forall id :: 0 <= id < |ctxs| ==> ctxs[id].k <= |ctxs[id].script|
  }

  /** The spawns each coroutine has yet to perform. */
  ghost function SpawnsLeft(ctxs: seq<Ctx>): seq<int>
    requires InRange(ctxs)
  {
    seq(|ctxs|, id requires 0 <= id < |ctxs| => SpawnsIn(ctxs[id].script[ctxs[id].k..]))
  }

  /** The coroutines that the launched scripts are good for. */
  function Budget(trace: seq<Entry>): nat {
    if trace == [] then 0 else
      var e := trace[|trace| - 1];
      Budget(trace[..|trace| - 1]) + if e.Root? then 1 + SpawnsIn(e.script) else 0
  }

  /** Coroutines are conserved: those born and those yet to be spawned. */
  ghost predicate Budgeted(w: World) {
    InRange(w.ctxs) && |w.ctxs| + Sum(SpawnsLeft(w.ctxs)) == Budget(w.trace)
  }

  lemma BudgetSnoc(trace: seq<Entry>, e: Entry)
    ensures Budget(trace + [e]) == Budget(trace) + if e.Root? then 1 + SpawnsIn(e.script) else 0
  {
    assert (trace + [e])[..|trace|] == trace;
  }

  lemma SpawnsSnoc(ctxs: seq<Ctx>, script: seq<Action>)
    requires InRange(ctxs)
    ensures InRange(ctxs + [NewCtx(script)])
    ensures Sum(SpawnsLeft(ctxs + [NewCtx(script)])) == Sum(SpawnsLeft(ctxs)) + SpawnsIn(script)
  {
    assert script[0..] == script;
    assert SpawnsLeft(ctxs + [NewCtx(script)])[..|ctxs|] == SpawnsLeft(ctxs);
  }

  lemma SpawnsUpdate(ctxs: seq<Ctx>, id: nat, c: Ctx)
    requires InRange(ctxs) && id < |ctxs| && c.k <= |c.script|
    ensures InRange(ctxs[id := c])
    ensures Sum(SpawnsLeft(ctxs[id := c])) == Sum(SpawnsLeft(ctxs))
      - SpawnsIn(ctxs[id].script[ctxs[id].k..]) + SpawnsIn(c.script[c.k..])
  {
    assert SpawnsLeft(ctxs[id := c]) == SpawnsLeft(ctxs)[id := SpawnsIn(c.script[c.k..])];
    SumUpdate(SpawnsLeft(ctxs), id, SpawnsIn(c.script[c.k..]));
  }

  lemma SpawnsHead(script: seq<Action>, k: nat)
    requires k < |script|
    ensures SpawnsIn(script[k..]) ==
      (match script[k] case Spawn(body) => 1 + SpawnsIn(body) case _ => 0) + SpawnsIn(script[k + 1..])
  {
    assert script[k..][0] == script[k] && script[k..][1..] == script[k + 1..];
  }

  /** A coroutine goes on, by at most one action, and bears a child if that is a spawn. */
  lemma StepBudget(ctxs: seq<Ctx>, id: nat, c': Ctx, children: seq<Ctx>)
    requires InRange(ctxs) && id < |ctxs| && c'.script == ctxs[id].script && c'.k <= |c'.script|
    requires c'.k == ctxs[id].k || c'.k == ctxs[id].k + 1
    requires if c'.k == ctxs[id].k + 1 && c'.script[ctxs[id].k].Spawn?
      then children == [NewCtx(c'.script[ctxs[id].k].body)] else children == []
    ensures var ctxs' := ctxs[id := c'] + children;
      InRange(ctxs') && |ctxs'| + Sum(SpawnsLeft(ctxs')) == |ctxs| + Sum(SpawnsLeft(ctxs))
  {
    var c := ctxs[id];
    SpawnsUpdate(ctxs, id, c');
    if c'.k == c.k + 1 {
      SpawnsHead(c.script, c.k);
    }
    if children == [] {
      assert ctxs[id := c'] + [] == ctxs[id := c'];
    } else {
      SpawnsSnoc(ctxs[id := c'], children[0].script);
    }
  }

  lemma UserBudget(w: World, m: Move)
    requires CanMove(w, m) && m.User? && Shaped(w) && Registered(w.sys) && Budgeted(w)
    ensures Budgeted(Perform(w, m))
  {
    hide Behave;
    var id, st := RunId(w, m.i), StepOf(w, m);
    RunnerReady(w, m.i);
    BehaveInOrder(w.ctxs[id], w.sys.procs[m.i], w.locked, w.data, m);
    UserPerforms(w, m);
    StepBudget(w.ctxs, id, st.ctx, Newborn(w, m));
    if st.done {
      BudgetSnoc(w.trace, Deed(id, w.ctxs[id], st.ctx));
    } else {
      assert w.trace + [] == w.trace;
    }
  }

  lemma {:induction false} BornBudget(n: nat, data: int, ms: seq<Move>, w: World)
    requires Play(Boot(n, data), ms) == Some(w)
    ensures Budgeted(w)
  {
    if ms != [] {
      var init, m := ms[..|ms| - 1], ms[|ms| - 1];
      var v := Play(Boot(n, data), init).value;
      BornBudget(n, data, init, v);
      PlayGood(n, data, init);
      MoveBudget(v, m);
    }
  }

  lemma MoveBudget(w: World, m: Move)
    requires Good(w) && CanMove(w, m) && Budgeted(w)
    ensures Budgeted(Perform(w, m))
  {
    hide Apply;
    assert Registered(w.sys);
    match m
    case Kernel(_) =>
    case Launch(_, _, _, script) =>
      SpawnsSnoc(w.ctxs, script);
      BudgetSnoc(w.trace, Root(script));
    case User(_, _, _, _) => UserBudget(w, m);
  }

  lemma {:induction false} BudgetOfRoot(trace: seq<Entry>, script: seq<Action>)
    requires OneRoot(trace) && trace != [] && trace[0] == Root(script)
    ensures Budget(trace) == 1 + SpawnsIn(script)
  {
    if |trace| == 1 {
      assert trace[..0] == [];
    } else {
      BudgetOfRoot(trace[..|trace| - 1], script);
    }
  }

  /** The live coroutines are among the born. */
  lemma LiveAmongBorn(s: Sys)
    requires Registered(s)
    ensures |s.heap| <= |s.births|
  {
    forall h | h in s.heap ensures h in s.births {
      assert s.births[s.heap[h].id] == h;
    }
    CoveredCard(s.heap.Keys, s.births);
  }

  /** At most as many coroutines are ever alive as the launched script can spawn, itself
      included. */
  lemma LiveWithinBudget(n: nat, data: int, ms: seq<Move>, w: World, script: seq<Action>)
    requires Play(Boot(n, data), ms) == Some(w) && w.trace != [] && w.trace[0] == Root(script)
    ensures |w.sys.heap| <= |w.ctxs| <= 1 + SpawnsIn(script)
  {
    BornBudget(n, data, ms, w);
    TraceHasOneRoot(n, data, ms);
    BudgetOfRoot(w.trace, script);
    PlayGood(n, data, ms);
    assert Registered(w.sys);
    LiveAmongBorn(w.sys);
    SumNonNegative(SpawnsLeft(w.ctxs));
  }

  // ---- scripts that do not wait for I/O ---------------------------------------------------

  predicate NeverWaits(script: seq<Action>)
    decreases script
  {
    script == [] ||
    (!script[0].Wait? && (script[0].Spawn? ==> NeverWaits(script[0].body)) && NeverWaits(script[1..]))
  }

  ghost predicate NobodyParked(w: World) {
    && (forall id :: 0 <= id < |w.ctxs| ==>
         w.ctxs[id].k <= |w.ctxs[id].script| && NeverWaits(w.ctxs[id].script[w.ctxs[id].k..]))
    && forall i :: 0 <= i < |w.sys.procs| ==> w.sys.procs[i].slab == map[]
  }

  lemma SlabStep(s: Sys, e: Event)
    requires Legal(s, e) && !e.WaitInsert? && s.procs[e.i].slab == map[]
    ensures Apply(s, e).procs[e.i].slab == map[]
  {
  }

  lemma StepWaits(c: Ctx, p: Proc, locked: bool, data: int, m: Move)
    requires m.User? && c.k <= |c.script| && NeverWaits(c.script[c.k..]) && (p.pc.Counted? ==> AtSpawn(c))
    ensures var st := Behave(c, p, locked, data, m);
      && (st.event.Some? ==> !st.event.value.WaitInsert?)
      && st.ctx.script == c.script && (st.ctx.k == c.k || (c.k < |c.script| && st.ctx.k == c.k + 1))
    ensures c.k < |c.script| ==>
      NeverWaits(c.script[c.k + 1..]) && (c.script[c.k].Spawn? ==> NeverWaits(c.script[c.k].body))
  {
    if c.k < |c.script| {
      assert c.script[c.k..][0] == c.script[c.k] && c.script[c.k..][1..] == c.script[c.k + 1..];
    }
  }

  lemma UserParks(w: World, m: Move)
    requires CanMove(w, m) && m.User? && Shaped(w) && Registered(w.sys) && NobodyParked(w)
    ensures NobodyParked(Perform(w, m))
  {
    hide Behave, NeverWaits, Apply;
    var id, st := RunId(w, m.i), StepOf(w, m);
    RunnerReady(w, m.i);
    StepWaits(w.ctxs[id], w.sys.procs[m.i], w.locked, w.data, m);
    BehaveEvents(w.ctxs[id], w.sys.procs[m.i], w.locked, w.data, m);
    UserPerforms(w, m);
    if st.event.Some? {
      SlabStep(w.sys, st.event.value);
    }
    var c := w.ctxs[id];
    assert w.sys.procs[m.i].pc.Counted? ==> c.script[c.k].body[0..] == c.script[c.k].body;
  }

  /** Where no script waits, no processor ever parks anybody. */
  lemma {:induction false} WaitlessRun(n: nat, data: int, ms: seq<Move>, w: World)
    requires Play(Boot(n, data), ms) == Some(w)
    requires forall k :: 0 <= k < |ms| && ms[k].Launch? ==> NeverWaits(ms[k].script)
    ensures NobodyParked(w)
  {
    if ms != [] {
      var init, m := ms[..|ms| - 1], ms[|ms| - 1];
      var v := Play(Boot(n, data), init).value;
      WaitlessRun(n, data, init, v);
      PlayGood(n, data, init);
      WaitlessStep(v, m);
    }
  }

  lemma WaitlessStep(w: World, m: Move)
    requires Good(w) && CanMove(w, m) && NobodyParked(w) && (m.Launch? ==> NeverWaits(m.script))
    ensures NobodyParked(Perform(w, m))
  {
    hide NobodyParked, CanMove, Perform;
    assert Registered(w.sys);
    if m.User? {
      UserParks(w, m);
    } else {
      KernelParks(w, m);
    }
  }

  lemma KernelParks(w: World, m: Move)
    requires CanMove(w, m) && !m.User? && NobodyParked(w) && (m.Launch? ==> NeverWaits(m.script))
    ensures NobodyParked(Perform(w, m))
  {
    hide Apply, NeverWaits, Behave;
    KernelPerforms(w, m);
    SlabStep(w.sys, EventOf(w, m).value);
    assert m.Launch? ==> m.script[0..] == m.script;
  }

  // ---- children that run to their end at once -------------------------------------------

  /** A script that neither yields, spawns, waits nor panics of itself. */
  predicate Direct(script: seq<Action>) {
    forall j :: 0 <= j < |script| ==> script[j].Lock? || script[j].Unlock? || script[j].Load? || script[j].Store?
  }

  /** A tame script that spawns direct scripts only. */
  predicate Shallow(script: seq<Action>) {
    Tame(script, false) && forall j :: 0 <= j < |script| && script[j].Spawn? ==> Direct(script[j].body)
  }

  ghost predicate Family(ctxs: seq<Ctx>) {
    forall id :: 0 <= id < |ctxs| ==>
      if id == 0 then forall j :: 0 <= j < |ctxs[0].script| && ctxs[0].script[j].Spawn? ==>
        Direct(ctxs[0].script[j].body)
      else Direct(ctxs[id].script)
  }

  /** The child at h waits in the slot or is the coroutine at hand, and has not yielded. */
  ghost predicate OnItsWay(p: Proc, h: Ptr) {
    || p.newSpawned == Some(h)
    || ((p.pc.Executing? || p.pc.Freeing? || (p.pc.Returned? && p.lastResult == Some(Ok(Finished)))) && p.pc.hdl == h)
  }

  /** One processor: every live coroutine but the first is a child on its way. */
  ghost predicate OneAtATime(w: World) {
    && |w.sys.procs| == 1 && Family(w.ctxs)
    && forall h :: h in w.sys.heap && w.sys.heap[h].id > 0 ==> OnItsWay(w.sys.procs[0], h)
  }

  /** A coroutine of a direct script that is being executed ends or goes on. */
  lemma DirectStep(c: Ctx, p: Proc, locked: bool, data: int, m: Move)
    requires m.User? && TameCtx(c) && (locked <==> c.guards == 1) && Direct(c.script) && p.pc.Executing?
    ensures var e := Behave(c, p, locked, data, m).event; e.Some? ==> e.value.Return?
  {
    if c.k < |c.script| {
      assert c.script[c.k..][0] == c.script[c.k];
    }
  }

  lemma KernelKeepsWay(s: Sys, e: Event, h: Ptr)
    requires Legal(s, e) && (IsKernel(e) || e.TopCreate?) && |s.procs| == 1 && Control(s.procs[0], s.heap)
    requires h in s.heap && OnItsWay(s.procs[0], h) && (e.TopCreate? ==> s.heap == map[])
    ensures h in Apply(s, e).heap ==> OnItsWay(Apply(s, e).procs[0], h)
  {
  }

  lemma UserKeepsWay(s: Sys, e: Event)
    requires Legal(s, e) && InCode(e) && |s.procs| == 1 && Control(s.procs[0], s.heap)
    requires forall h :: h in s.heap && s.heap[h].id > 0 ==> OnItsWay(s.procs[0], h)
    requires s.heap[s.procs[0].pc.hdl].id > 0 ==> e.Return?
    ensures forall h :: h in Apply(s, e).heap && Apply(s, e).heap[h].id > 0 ==> OnItsWay(Apply(s, e).procs[0], h)
  {
    if e.SpawnCreate? {
      assert Apply(s, e).procs[0].newSpawned == Some(e.ptr);
    } else {
      HeapFrame(s, e);
      if e.Return? {
        assert Apply(s, e).procs[0].pc == Returned(s.procs[0].pc.hdl) &&
          Apply(s, e).procs[0].lastResult == Some(Ok(Finished));
      }
    }
  }

  lemma FamilyAfter(ctxs: seq<Ctx>, id: nat, c: Ctx, children: seq<Ctx>)
    requires Family(ctxs) && id < |ctxs| && c.script == ctxs[id].script
    requires children != [] ==> |children| == 1 && Direct(children[0].script)
    ensures Family(ctxs[id := c] + children)
  {
  }

  lemma ChildIsDirect(ctxs: seq<Ctx>, id: nat)
    requires Family(ctxs) && id < |ctxs| && AtSpawn(ctxs[id])
    ensures id == 0 && Direct(ctxs[id].script[ctxs[id].k].body)
  {
  }

  lemma UserOne(w: World, m: Move)
    requires CanMove(w, m) && m.User? && Shaped(w) && Registered(w.sys) && Control(w.sys.procs[0], w.sys.heap)
    requires HolderRuns(w) && NoneWaits(w.sys) && OneAtATime(w)
    ensures OneAtATime(Perform(w, m))
  {
    hide Behave, Apply, OnItsWay;
    var id, st, p := RunId(w, m.i), StepOf(w, m), w.sys.procs[0];
    RunnerReady(w, m.i);
    BehaveInOrder(w.ctxs[id], p, w.locked, w.data, m);
    BehaveEvents(w.ctxs[id], p, w.locked, w.data, m);
    UserPerforms(w, m);
    if p.pc.Counted? {
      ChildIsDirect(w.ctxs, id);
    }
    FamilyAfter(w.ctxs, id, st.ctx, Newborn(w, m));
    if id > 0 {
      DirectStep(w.ctxs[id], p, w.locked, w.data, m);
    }
    if st.event.Some? {
      UserKeepsWay(w.sys, st.event.value);
    }
  }

  lemma LaunchOne(w: World, m: Move)
    requires CanMove(w, m) && m.Launch? && Good(w) && OneAtATime(w) && w.trace == [] && Shallow(m.script)
    ensures OneAtATime(Perform(w, m))
  {
    var pl :| Inv(w.sys, pl);
    assert |Scripts(w.ctxs)| == 0;
    assert w.sys.births == [] && w.sys.heap == map[];
  }

  lemma KernelOne(w: World, m: Move)
    requires CanMove(w, m) && m.Kernel? && OneAtATime(w) && Control(w.sys.procs[0], w.sys.heap)
    ensures OneAtATime(Perform(w, m))
  {
    var s, e := w.sys, m.e;
    forall h | h in Apply(s, e).heap && Apply(s, e).heap[h].id > 0 ensures OnItsWay(Apply(s, e).procs[0], h) {
      IdKept(s, e, h);
      KernelKeepsWay(s, e, h);
    }
  }

  /** On one processor, where the launched script is shallow, a child runs to its end before
      its parent goes on. */
  lemma {:induction false} ShallowRun(data: int, ms: seq<Move>, w: World)
    requires Play(Boot(1, data), ms) == Some(w)
    requires forall k :: 0 <= k < |ms| && ms[k].Launch? ==> Shallow(ms[k].script)
    ensures OneAtATime(w)
  {
    if ms == [] {
      assert w.sys.heap == map[] && |w.sys.procs| == 1;
    } else {
      var init, m := ms[..|ms| - 1], ms[|ms| - 1];
      var v := Play(Boot(1, data), init).value;
      ShallowRun(data, init, v);
      TameRun(data, init, v);
      PlayGood(1, data, init);
      if m.Launch? {
        TraceHasOneRoot(1, data, init);
        LaunchIsFirst(1, data, init, v, m);
        LaunchOne(v, m);
      } else {
        StepOne(v, m);
      }
    }
  }

  lemma StepOne(w: World, m: Move)
    requires CanMove(w, m) && !m.Launch? && Good(w) && HolderRuns(w) && NoneWaits(w.sys) && OneAtATime(w)
    ensures OneAtATime(Perform(w, m))
  {
    var pl :| Inv(w.sys, pl);
    assert Control(w.sys.procs[0], w.sys.heap) && Registered(w.sys);
    if m.User? {
      UserOne(w, m);
    } else {
      KernelOne(w, m);
    }
  }

  /** So two coroutines at most are alive. */
  lemma TwoAlive(w: World)
    requires OneAtATime(w) && Registered(w.sys) && Control(w.sys.procs[0], w.sys.heap)
    ensures |w.sys.heap| <= 2
  {
    var s, p := w.sys, w.sys.procs[0];
    if s.heap != map[] {
      var h0 :| h0 in s.heap;
      var root := s.births[0];
      var child := if p.newSpawned.Some? && p.newSpawned.value != root then p.newSpawned.value
                   else if HasHdl(p.pc) then p.pc.hdl else root;
      forall h | h in s.heap ensures h == root || h == child {
        if s.heap[h].id > 0 {
          assert OnItsWay(p, h);
        }
      }
      SubsetCard(s.heap.Keys, {root, child});
    }
  }

  /** A bound on the coroutines that are alive at any time on one processor. */
  function Peak(script: seq<Action>): nat {
    if Shallow(script) then 2 else 1 + SpawnsIn(script)
  }

  lemma LiveWithinPeak(data: int, ms: seq<Move>, w: World, script: seq<Action>)
    requires Play(Boot(1, data), ms) == Some(w) && w.trace != [] && w.trace[0] == Root(script)
    ensures |w.sys.heap| <= Peak(script)
    ensures |w.sys.heap| <= 1 + SpawnsIn(script) && (Shallow(script) ==> |w.sys.heap| <= 2)
  {
    LiveWithinBudget(1, data, ms, w, script);
    if Shallow(script) {
      forall k | 0 <= k < |ms| && ms[k].Launch? ensures ms[k].script == script {
        LaunchIsRoot(1, data, ms, k);
      }
      ShallowRun(data, ms, w);
      PlayGood(1, data, ms);
      AliveInGood(w);
    }
  }

  lemma AliveInGood(w: World)
    requires Good(w) && OneAtATime(w)
    ensures |w.sys.heap| <= 2
  {
    var pl :| Inv(w.sys, pl);
    assert Registered(w.sys) && Control(w.sys.procs[0], w.sys.heap);
    TwoAlive(w);
  }

  // ---- the program of test_mutex ----------------------------------------------------------

  lemma {:induction false} RoundsDirect(times: nat)
    ensures Direct(Repeat(ROUND, times)) && NeverWaits(Repeat(ROUND, times))
  {
    if times > 0 {
      RoundsDirect(times - 1);
      WaitlessAppend(ROUND, Repeat(ROUND, times - 1));
      assert ROUND[1..] == [Load, Store, Unlock] && ROUND[2..] == [Store, Unlock] && ROUND[3..] == [Unlock];
    }
  }

  lemma {:induction false} WaitlessAppend(a: seq<Action>, b: seq<Action>)
    requires NeverWaits(b) && forall j :: 0 <= j < |a| ==> !a[j].Wait? && (a[j].Spawn? ==> NeverWaits(a[j].body))
    ensures NeverWaits(a + b)
  {
    if a == [] {
      assert a + b == b;
    } else {
      WaitlessAppend(a[1..], b);
      assert (a + b)[1..] == a[1..] + b;
    }
  }

  lemma {:induction false} SpawnsOnly(body: seq<Action>, n: nat, j: nat)
    requires j < |Repeat([Spawn(body)], n)|
    ensures Repeat([Spawn(body)], n)[j] == Spawn(body)
  {
    if n > 0 && j > 0 {
      SpawnsOnly(body, n - 1, j - 1);
    }
  }

  /** Each child of the test runs to its end before the next is spawned, and nobody waits. */
  lemma CounterIsShallow(coroutines: nat, times: nat)
    ensures Shallow(Counter(coroutines, times)) && NeverWaits(Counter(coroutines, times))
  {
    var body := Repeat(ROUND, times);
    CounterTotal(coroutines, times);
    RoundsDirect(times);
    forall j | 0 <= j < |Counter(coroutines, times)| ensures Counter(coroutines, times)[j] == Spawn(body) {
      SpawnsOnly(body, coroutines, j);
    }
    WaitlessAppend(Counter(coroutines, times), []);
    assert Counter(coroutines, times) + [] == Counter(coroutines, times);
  }

  lemma {:induction false} RoundsShape(times: nat)
    ensures |Repeat(ROUND, times)| == 4 * times && SpawnsIn(Repeat(ROUND, times)) == 0
    ensures forall k :: 0 <= k < times ==>
      Repeat(ROUND, times)[4 * k..4 * k + 4] == [Lock, Load, Store, Unlock]
  {
    if times > 0 {
      RoundsShape(times - 1);
      var all, rest := Repeat(ROUND, times), Repeat(ROUND, times - 1);
      forall k | 0 <= k < times ensures all[4 * k..4 * k + 4] == [Lock, Load, Store, Unlock] {
        if k > 0 {
          assert all[4 * k..4 * k + 4] == rest[4 * (k - 1)..4 * (k - 1) + 4];
        }
      }
      forall k | 0 <= k < 4 ensures all[k..] == [ROUND[k]] + all[k + 1..] {
        assert all[k] == ROUND[k];
      }
      assert all[4..] == rest && all[0..] == all;
      forall k | 0 <= k < 4 ensures SpawnsIn(all[k..]) == SpawnsIn(all[k + 1..]) {
        SpawnsHead(all, k);
      }
    }
  }

  lemma {:induction false} SpawnsOfRepeat(body: seq<Action>, n: nat)
    ensures |Repeat([Spawn(body)], n)| == n && SpawnsIn(Repeat([Spawn(body)], n)) == n * (1 + SpawnsIn(body))
  {
    if n > 0 {
      SpawnsOfRepeat(body, n - 1);
      assert Repeat([Spawn(body)], n)[1..] == Repeat([Spawn(body)], n - 1);
      assert n * (1 + SpawnsIn(body)) == (n - 1) * (1 + SpawnsIn(body)) + 1 + SpawnsIn(body);
    }
  }

  /** What the test spawns: so many coroutines, each with so many rounds of lock, read,
      write and release, and none with children of its own. */
  lemma CounterShape(coroutines: nat, times: nat)
    ensures |Counter(coroutines, times)| == coroutines == SpawnsIn(Counter(coroutines, times))
    ensures forall j :: 0 <= j < coroutines ==>
      var a := Counter(coroutines, times)[j];
      && a.Spawn? && |a.body| == 4 * times && StoresIn(a.body) == times && SpawnsIn(a.body) == 0
      && forall k :: 0 <= k < times ==> a.body[4 * k..4 * k + 4] == [Lock, Load, Store, Unlock]
  {
    var body := Repeat(ROUND, times);
    RoundsShape(times);
    RoundsTotal(times);
    SpawnsOfRepeat(body, coroutines);
    forall j | 0 <= j < coroutines ensures Counter(coroutines, times)[j] == Spawn(body) {
      SpawnsOnly(body, coroutines, j);
    }
  }

  /** When all threads have returned and nobody has panicked, as many coroutines have been
      born as the launched scripts are good for. */
  lemma AllBorn(n: nat, data: int, ms: seq<Move>, w: World)
    requires n > 0 && Play(Boot(n, data), ms) == Some(w) && NonePanicked(w.ctxs)
    requires forall i :: 0 <= i < |w.sys.procs| ==> w.sys.procs[i].pc == Exited(true)
    ensures |w.ctxs| == Budget(w.trace)
  {
    hide Play, Good, Registered;
    BornBudget(n, data, ms, w);
    PlayGood(n, data, ms);
    NothingLeft(n, data, ms, w);
    AllEnded(w);
    NoneLeft(w);
  }

  lemma NoneLeft(w: World)
    requires InRange(w.ctxs) && forall id :: 0 <= id < |w.ctxs| ==> w.ctxs[id].k == |w.ctxs[id].script|
    ensures Sum(SpawnsLeft(w.ctxs)) == 0
  {
    assert forall id :: 0 <= id < |w.ctxs| ==> w.ctxs[id].script[w.ctxs[id].k..] == [];
    SumZeros(SpawnsLeft(w.ctxs));
  }
}
