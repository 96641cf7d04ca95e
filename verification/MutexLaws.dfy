/** The spin/yield mutex under the scheduler: exactly when it excludes, and that updates
    through guards are then never lost. */
module MutexLaws {
  import opened Basics
  import opened Protocol
  import opened Ownership
  import opened Invariant
  import opened LifeCycle
  import opened Programs
  import opened Traces

  /** Coroutine number id has the only live guard. */
  ghost predicate Holder(ctxs: seq<Ctx>, id: nat) {
    && id < |ctxs| && ctxs[id].guards == 1
    && forall j :: 0 <= j < |ctxs| && j != id ==> ctxs[j].guards == 0
  }

  /** The lock flag is set exactly while one guard is live. */
  ghost predicate Exclusive(w: World) {
    if w.locked then exists id: nat :: Holder(w.ctxs, id)
    else forall j :: 0 <= j < |w.ctxs| ==> w.ctxs[j].guards == 0
  }

  /** The next compare_and_swap of a Guard::drop loop would find the flag set: either the
      loop repeats after its own release and another coroutine has locked meanwhile, or
      the guard was never acquired and came out of a failed lock or try_lock. */
  predicate Steals(w: World, m: Move) {
    m.User? && InUser(w, m.i) && w.sys.procs[m.i].pc.Executing? && w.locked && w.ctxs[RunId(w, m.i)].dropping
  }

  lemma KeepsGuards(w: World, m: Move)
    requires CanMove(w, m) && Exclusive(w)
    requires Perform(w, m).locked == w.locked && |Perform(w, m).ctxs| >= |w.ctxs|
    requires forall j :: 0 <= j < |w.ctxs| ==> Perform(w, m).ctxs[j].guards == w.ctxs[j].guards
    requires forall j :: |w.ctxs| <= j < |Perform(w, m).ctxs| ==> Perform(w, m).ctxs[j].guards == 0
    ensures Exclusive(Perform(w, m))
  {
    if w.locked {
      var id: nat :| Holder(w.ctxs, id);
      assert Holder(Perform(w, m).ctxs, id);
    }
  }

  /** What a step may do to the guards of its coroutine and to the flag: nothing, repeat a
      release, drop a live guard, or acquire one. */
  predicate Guards(c: Ctx, locked: bool, st: Step) {
    || (st.ctx.guards == c.guards && st.locked == locked)
    || (c.dropping && st.ctx.guards == c.guards && !st.locked)
    || (!c.dropping && c.guards > 0 && st.ctx.guards == c.guards - 1 && !st.locked)
    || (!c.dropping && !locked && st.ctx.guards == c.guards + 1 && st.locked)
  }

  lemma StepGuards(c: Ctx, p: Proc, locked: bool, data: int, m: Move)
    requires m.User? && c.k <= |c.script|
    ensures Guards(c, locked, Behave(c, p, locked, data, m))
    ensures p.pc.Counted? || p.pc.InWait? ==>
      var st := Behave(c, p, locked, data, m); st.ctx.guards == c.guards && st.locked == locked
  {
    if !p.pc.Counted? && !p.pc.InWait? && !c.dropping && !c.unwinding && c.k < |c.script| {
      ActionGuards(c, p, locked, data, m);
    }
  }

  lemma ActionGuards(c: Ctx, p: Proc, locked: bool, data: int, m: Move)
    requires m.User? && !p.pc.Counted? && !p.pc.InWait? && !c.dropping && !c.unwinding && c.k < |c.script|
    ensures Guards(c, locked, Behave(c, p, locked, data, m))
  {
  }

  lemma UserGuards(w: World, m: Move)
    requires CanMove(w, m) && m.User? && Exclusive(w) && !Steals(w, m)
    ensures Exclusive(Perform(w, m))
  {
    var id, st, v := RunId(w, m.i), StepOf(w, m), Perform(w, m);
    var c := w.ctxs[id];
    StepGuards(c, w.sys.procs[m.i], w.locked, w.data, m);
    if st.ctx.guards == c.guards && st.locked == w.locked {
      KeepsGuards(w, m);
    } else if w.locked {
      var h: nat :| Holder(w.ctxs, h);
      assert h == id;
    } else {
      assert Holder(v.ctxs, id);
    }
  }

  /** The exact condition, for any number of processors: a move keeps the flag and the live
      guards in agreement if and only if it is not a release of a lock that is not its
      own. */
  lemma ExclusiveIff(w: World, m: Move)
    requires CanMove(w, m) && Exclusive(w)
    ensures Exclusive(Perform(w, m)) <==> !Steals(w, m)
  {
    if Steals(w, m) {
      var id, v := RunId(w, m.i), Perform(w, m);
      var h: nat :| Holder(w.ctxs, h);
      assert v.ctxs[h].guards == 1 && !v.locked;
    } else if m.User? {
      UserGuards(w, m);
    } else {
      KeepsGuards(w, m);
    }
  }

  /** Scripts that respect the guard: data is reached only through a live guard, stored only
      after a load under the same guard, and the lock is not requested while it is held. */
  predicate Disciplined(script: seq<Action>, held: bool, loaded: bool)
    decreases script
  {
    script == [] ||
    var rest := script[1..];
    match script[0]
    case Yield => Disciplined(rest, held, loaded)
    case Wait => Disciplined(rest, held, loaded)
    case Spawn(body) => Disciplined(body, false, false) && Disciplined(rest, held, loaded)
    case Lock => !held && Disciplined(rest, true, false)
    case TryLock => !held && Disciplined(rest, true, false)
    case Unlock => held && Disciplined(rest, false, false)
    case Load => held && Disciplined(rest, held, true)
    case Store => held && loaded && Disciplined(rest, held, false)
    case Throw => true
  }

  predicate Careful(c: Ctx) {
    && c.k <= |c.script|
    && (c.loaded ==> c.guards > 0)
    && (!c.unwinding ==> Disciplined(c.script[c.k..], c.guards > 0, c.loaded))
  }

  /** The number of stores in a trace. */
  function Stores(trace: seq<Entry>): nat {
    if trace == [] then 0 else
      var e := trace[|trace| - 1];
      Stores(trace[..|trace| - 1]) + if e.Did? && e.action.Store? then 1 else 0
  }

  /** A coroutine that has loaded under its guard still sees the current value. */
  ghost predicate SeeCurrent(ctxs: seq<Ctx>, data: int) {
    forall id :: 0 <= id < |ctxs| ==> Careful(ctxs[id]) && (ctxs[id].loaded ==> ctxs[id].reg == data)
  }

  ghost predicate Current(w: World, start: int) {
    w.data == start + Stores(w.trace) && SeeCurrent(w.ctxs, w.data)
  }

  ghost predicate StepsData(c: Ctx, data: int, st: Step) {
    && Careful(st.ctx) && (st.ctx.loaded ==> st.ctx.reg == st.data)
    && (if st.done && c.k < |c.script| && c.script[c.k].Store?
        then st.data == data + 1 && c.guards == 1 else st.data == data)
  }

  predicate UsesFlag(a: Action) {
    a.Lock? || a.TryLock? || a.Unlock?
  }

  lemma FlagData(c: Ctx, p: Proc, locked: bool, data: int, m: Move)
    requires m.User? && Careful(c) && c.guards <= 1 && (c.loaded ==> c.reg == data)
    requires c.k < |c.script| && !c.dropping && !c.unwinding && !p.pc.InWait? && !p.pc.Counted?
    requires UsesFlag(c.script[c.k])
    ensures StepsData(c, data, Behave(c, p, locked, data, m))
  {
    assert c.script[c.k..][0] == c.script[c.k] && c.script[c.k..][1..] == c.script[c.k + 1..];
  }

  lemma PlainData(c: Ctx, p: Proc, locked: bool, data: int, m: Move)
    requires m.User? && Careful(c) && c.guards <= 1 && (c.loaded ==> c.reg == data)
    requires c.k < |c.script| && !c.dropping && !c.unwinding && !p.pc.InWait? && !p.pc.Counted?
    requires !UsesFlag(c.script[c.k])
    ensures StepsData(c, data, Behave(c, p, locked, data, m))
  {
    assert c.script[c.k..][0] == c.script[c.k] && c.script[c.k..][1..] == c.script[c.k + 1..];
  }

  lemma StepData(c: Ctx, p: Proc, locked: bool, data: int, m: Move)
    requires m.User? && Careful(c) && c.guards <= 1 && (c.loaded ==> c.reg == data)
    requires p.pc.Counted? ==> AtSpawn(c)
    ensures StepsData(c, data, Behave(c, p, locked, data, m))
    ensures p.pc.Counted? ==> Disciplined(c.script[c.k].body, false, false)
  {
    if p.pc.Counted? {
      assert c.script[c.k..][0] == c.script[c.k] && c.script[c.k..][1..] == c.script[c.k + 1..];
    } else if !p.pc.InWait? && !c.dropping && !c.unwinding && c.k < |c.script| {
      if UsesFlag(c.script[c.k]) {
        FlagData(c, p, locked, data, m);
      } else {
        PlainData(c, p, locked, data, m);
      }
    }
  }

  lemma StoresSnoc(trace: seq<Entry>, e: Entry)
    ensures Stores(trace + [e]) == Stores(trace) + if e.Did? && e.action.Store? then 1 else 0
  {
    assert (trace + [e])[..|trace|] == trace;
  }

  /** A step that stores is made by the holder, so no other coroutine has loaded. */
  lemma SeeStep(ctxs: seq<Ctx>, id: nat, c: Ctx, data: int, data': int)
    requires SeeCurrent(ctxs, data) && id < |ctxs| && Careful(c) && (c.loaded ==> c.reg == data')
    requires data' == data || Holder(ctxs, id)
    ensures SeeCurrent(ctxs[id := c], data')
  {
  }

  lemma SeeBirth(ctxs: seq<Ctx>, script: seq<Action>, data: int)
    requires SeeCurrent(ctxs, data) && Disciplined(script, false, false)
    ensures SeeCurrent(ctxs + [NewCtx(script)], data)
  {
    assert script[0..] == script;
  }

  lemma UserSees(w: World, m: Move, start: int)
    requires CanMove(w, m) && m.User? && Exclusive(w) && Current(w, start) && SpawnersReady(w.sys, w.ctxs)
    ensures StepsData(w.ctxs[RunId(w, m.i)], w.data, StepOf(w, m))
    ensures SeeCurrent(Perform(w, m).ctxs, Perform(w, m).data)
  {
    var id, st := RunId(w, m.i), StepOf(w, m);
    var c := w.ctxs[id];
    GuardBound(w, id);
    StepData(c, w.sys.procs[m.i], w.locked, w.data, m);
    SeeStep(w.ctxs, id, st.ctx, w.data, st.data);
    if w.sys.procs[m.i].pc.Counted? {
      SeeBirth(w.ctxs[id := st.ctx], c.script[c.k].body, st.data);
    } else {
      assert w.ctxs[id := st.ctx] + [] == w.ctxs[id := st.ctx];
    }
  }

  lemma GuardBound(w: World, id: nat)
    requires Exclusive(w) && id < |w.ctxs|
    ensures w.ctxs[id].guards <= 1 && (w.ctxs[id].guards == 1 ==> Holder(w.ctxs, id))
  {
    if w.locked {
      var h: nat :| Holder(w.ctxs, h);
    }
  }

  lemma UserCurrent(w: World, m: Move, start: int)
    requires CanMove(w, m) && m.User? && Exclusive(w) && Current(w, start) && SpawnersReady(w.sys, w.ctxs)
    ensures Current(Perform(w, m), start)
  {
    UserSees(w, m, start);
    var id, st := RunId(w, m.i), StepOf(w, m);
    var c := w.ctxs[id];
    if st.done && c.k < |c.script| {
      StoresSnoc(w.trace, Deed(id, c, st.ctx));
    } else {
      assert w.trace + [] == w.trace;
    }
  }

  /** No lock is stolen during the run. */
  ghost predicate NeverSteals(w: World, ms: seq<Move>)
    requires Play(w, ms).Some?
  {
    ms == [] || (NeverSteals(w, ms[..|ms| - 1]) && !Steals(Play(w, ms[..|ms| - 1]).value, ms[|ms| - 1]))
  }

  /** Every top-level script is disciplined. */
  predicate LaunchesDisciplined(ms: seq<Move>) {
    forall k :: 0 <= k < |ms| && ms[k].Launch? ==> Disciplined(ms[k].script, false, false)
  }

  lemma CurrentStep(w: World, m: Move, start: int)
    requires CanMove(w, m) && Exclusive(w) && Current(w, start) && Shaped(w)
    requires m.Launch? ==> Disciplined(m.script, false, false)
    ensures Current(Perform(w, m), start)
  {
    match m
    case Kernel(_) =>
    case Launch(_, _, _, script) =>
      StoresSnoc(w.trace, Root(script));
      SeeBirth(w.ctxs, script, w.data);
    case User(_, _, _, _) => UserCurrent(w, m, start);
  }

  /** Mutual exclusion and no lost updates, for any number of coroutines, yield points and
      processors, as long as no release is a steal: the flag is set exactly while one guard
      is live, and the data is its initial value plus the number of stores. */
  lemma {:induction false} NoLostUpdates(n: nat, start: int, ms: seq<Move>, w: World)
    requires Play(Boot(n, start), ms) == Some(w) && NeverSteals(Boot(n, start), ms) && LaunchesDisciplined(ms)
    ensures Exclusive(w) && Current(w, start) && w.data == start + Stores(w.trace)
  {
    if ms != [] {
      var init, m := ms[..|ms| - 1], ms[|ms| - 1];
      var v := Play(Boot(n, start), init).value;
      NoLostUpdates(n, start, init, v);
      PlayGood(n, start, init);
      ExclusiveIff(v, m);
      CurrentStep(v, m, start);
    }
  }

  /** The coroutine on processor i is at a lock that has used up its tries or at a try_lock. */
  predicate AtFailure(w: World, i: nat) {
    InUser(w, i) && w.sys.procs[i].pc.Executing? &&
    var c := w.ctxs[RunId(w, i)];
    !c.dropping && !c.unwinding && c.k < |c.script| &&
    (c.script[c.k].TryLock? || (c.script[c.k].Lock? && c.tries == POISON_RETRY_COUNT))
  }

  /** A lock or try_lock fails with this move while the flag is set. */
  predicate FailsHeld(w: World, m: Move) {
    m.User? && AtFailure(w, m.i) && w.locked
  }

  ghost predicate NeverFailsHeld(w: World, ms: seq<Move>)
    requires Play(w, ms).Some?
  {
    ms == [] || (NeverFailsHeld(w, ms[..|ms| - 1]) && !FailsHeld(Play(w, ms[..|ms| - 1]).value, ms[|ms| - 1]))
  }

  /** Some guard is about to release a lock that is not its own. */
  ghost predicate Intrudes(w: World) {
    w.locked && exists id :: 0 <= id < |w.ctxs| && w.ctxs[id].dropping
  }

  /** On one processor a coroutine inside a drop loop is the one being executed. */
  ghost predicate OneDrops(w: World) {
    |w.sys.procs| == 1 &&
    forall id :: 0 <= id < |w.ctxs| && w.ctxs[id].dropping ==>
      InUser(w, 0) && w.sys.procs[0].pc.Executing? && RunId(w, 0) == id
  }

  lemma StepDrops(c: Ctx, p: Proc, locked: bool, data: int, m: Move)
    requires m.User? && c.k <= |c.script|
    requires p.pc.Executing? || ((p.pc.Counted? || p.pc.InWait?) && !c.dropping)
    ensures var st := Behave(c, p, locked, data, m);
      && (st.ctx.dropping ==> st.event.None? && p.pc.Executing?)
      && (!(c.dropping && locked) ==>
          (st.ctx.dropping && st.locked <==>
            locked && p.pc.Executing? && !c.dropping && !c.unwinding && c.k < |c.script| &&
            (c.script[c.k].TryLock? || (c.script[c.k].Lock? && c.tries == POISON_RETRY_COUNT))))
  {
  }

  lemma OneDropsUser(w: World, m: Move)
    requires OneDrops(w) && CanMove(w, m) && Shaped(w) && Registered(w.sys) && m.User?
    ensures OneDrops(Perform(w, m))
    ensures !Intrudes(w) ==> (Intrudes(Perform(w, m)) <==> FailsHeld(w, m))
  {
    hide Behave, Apply;
    var id, st := RunId(w, m.i), StepOf(w, m);
    RunnerNotOver(w, m.i);
    BehaveInOrder(w.ctxs[id], w.sys.procs[m.i], w.locked, w.data, m);
    StepDrops(w.ctxs[id], w.sys.procs[m.i], w.locked, w.data, m);
    UserDrops(w, m, id, st);
  }

  /** The same, in terms of the step of coroutine number id. */
  lemma UserDrops(w: World, m: Move, id: nat, st: Step)
    requires OneDrops(w) && CanMove(w, m) && m.User? && id == RunId(w, m.i) && st == StepOf(w, m)
    requires st.ctx.k <= |st.ctx.script| && (st.ctx.dropping ==> st.event.None? && w.sys.procs[0].pc.Executing?)
    requires !(w.ctxs[id].dropping && w.locked) ==> (st.ctx.dropping && st.locked <==> FailsHeld(w, m))
    ensures OneDrops(Perform(w, m))
    ensures !Intrudes(w) ==> (Intrudes(Perform(w, m)) <==> FailsHeld(w, m))
  {
    hide Behave, Apply, FailsHeld;
    var v := Perform(w, m);
    assert v.ctxs[id] == st.ctx && v.locked == st.locked;
    assert forall j :: 0 <= j < |w.ctxs| && j != id ==> !w.ctxs[j].dropping;
    assert forall j :: 0 <= j < |v.ctxs| && j != id ==> !v.ctxs[j].dropping;
  }

  lemma OneDropsStep(w: World, m: Move)
    requires OneDrops(w) && CanMove(w, m) && Shaped(w) && Registered(w.sys)
    ensures OneDrops(Perform(w, m)) && (Steals(w, m) <==> Intrudes(w))
    ensures !Intrudes(w) ==> (Intrudes(Perform(w, m)) <==> FailsHeld(w, m))
  {
    if m.User? {
      OneDropsUser(w, m);
    } else {
      KernelIsOutside(w.sys, EventOf(w, m).value);
    }
  }

  lemma KernelIsOutside(s: Sys, e: Event)
    requires Enabled(s, e) && (IsKernel(e) || e.TopCreate?)
    ensures !s.procs[e.i].pc.Executing?
  {
  }

  ghost predicate NonePoisoned(w: World) {
    forall id :: 0 <= id < |w.ctxs| ==> !w.ctxs[id].poisoned
  }

  lemma PoisonStays(w: World, m: Move)
    requires CanMove(w, m) && NonePoisoned(Perform(w, m))
    ensures NonePoisoned(w)
  {
    var v := Perform(w, m);
    if m.User? {
      BehavePoison(w.ctxs[RunId(w, m.i)], w.sys.procs[m.i], w.locked, w.data, m);
    }
    forall id | 0 <= id < |w.ctxs| ensures !w.ctxs[id].poisoned {
      assert !v.ctxs[id].poisoned;
    }
  }

  lemma BehavePoison(c: Ctx, p: Proc, locked: bool, data: int, m: Move)
    requires m.User? && c.k <= |c.script|
    ensures c.poisoned ==> Behave(c, p, locked, data, m).ctx.poisoned
  {
  }

  /** The exact condition on one processor: no lock and no try_lock has failed while the flag
      was set if and only if no release has been a steal and none is about to be one. (After
      such a failure nothing but the steal can happen next.) */
  lemma {:induction false} OneProcessorIff(start: int, ms: seq<Move>, w: World)
    requires Play(Boot(1, start), ms) == Some(w)
    ensures OneDrops(w)
    ensures NeverFailsHeld(Boot(1, start), ms) <==> NeverSteals(Boot(1, start), ms) && !Intrudes(w)
  {
    if ms != [] {
      var init, m := ms[..|ms| - 1], ms[|ms| - 1];
      var v := Play(Boot(1, start), init).value;
      OneProcessorIff(start, init, v);
      PlayGood(1, start, init);
      assert Registered(v.sys);
      OneDropsStep(v, m);
    }
  }

  lemma FailurePoisons(w: World, m: Move)
    requires CanMove(w, m) && FailsHeld(w, m)
    ensures !NonePoisoned(Perform(w, m))
  {
    assert Perform(w, m).ctxs[RunId(w, m.i)].poisoned;
  }

  lemma {:induction false} NoneFailsHeld(start: int, ms: seq<Move>, w: World)
    requires Play(Boot(1, start), ms) == Some(w) && NonePoisoned(w)
    ensures NeverFailsHeld(Boot(1, start), ms)
  {
    if ms != [] {
      var init, m := ms[..|ms| - 1], ms[|ms| - 1];
      var v := Play(Boot(1, start), init).value;
      PoisonStays(v, m);
      NoneFailsHeld(start, init, v);
      if FailsHeld(v, m) {
        FailurePoisons(v, m);
      }
    }
  }

  /** In particular: on one processor, while no lock call has exhausted its retries and no
      try_lock has failed, no release is a steal. */
  lemma OneProcessorSafe(start: int, ms: seq<Move>, w: World)
    requires Play(Boot(1, start), ms) == Some(w) && NonePoisoned(w)
    ensures NeverSteals(Boot(1, start), ms)
  {
    NoneFailsHeld(start, ms, w);
    OneProcessorIff(start, ms, w);
  }

  /** The number of stores in a script, those of spawned scripts included. */
  function StoresIn(script: seq<Action>): nat
    decreases script
  {
    if script == [] then 0 else
      (match script[0] case Store => 1 case Spawn(body) => StoresIn(body) case _ => 0) + StoresIn(script[1..])
  }

  /** The stores each coroutine has yet to perform. */
  function StoresLeft(ctxs: seq<Ctx>): seq<int>
    requires forall id :: 0 <= id < |ctxs| ==> ctxs[id].k <= |ctxs[id].script|
  {
    seq(|ctxs|, id requires 0 <= id < |ctxs| => StoresIn(ctxs[id].script[ctxs[id].k..]))
  }

  /** The stores in all top-level scripts of a trace. */
  function StoresLaunched(trace: seq<Entry>): nat {
    if trace == [] then 0 else
      var e := trace[|trace| - 1];
      StoresLaunched(trace[..|trace| - 1]) + if e.Root? then StoresIn(e.script) else 0
  }

  lemma LaunchedSnoc(trace: seq<Entry>, e: Entry)
    ensures StoresLaunched(trace + [e]) == StoresLaunched(trace) + if e.Root? then StoresIn(e.script) else 0
  {
    assert (trace + [e])[..|trace|] == trace;
  }

  /** Stores are conserved: performed and outstanding ones add up to those launched. */
  ghost predicate Conserved(w: World) {
    && (forall id :: 0 <= id < |w.ctxs| ==> w.ctxs[id].k <= |w.ctxs[id].script|)
    && Stores(w.trace) + Sum(StoresLeft(w.ctxs)) == StoresLaunched(w.trace)
  }

  lemma StoresLeftSnoc(ctxs: seq<Ctx>, script: seq<Action>)
    requires forall id :: 0 <= id < |ctxs| ==> ctxs[id].k <= |ctxs[id].script|
    ensures Sum(StoresLeft(ctxs + [NewCtx(script)])) == Sum(StoresLeft(ctxs)) + StoresIn(script)
  {
    var all := ctxs + [NewCtx(script)];
    assert script[0..] == script;
    assert StoresLeft(all)[..|ctxs|] == StoresLeft(ctxs);
  }

  lemma StoresLeftUpdate(ctxs: seq<Ctx>, id: nat, c: Ctx)
    requires id < |ctxs| && forall j :: 0 <= j < |ctxs| ==> ctxs[j].k <= |ctxs[j].script|
    requires c.script == ctxs[id].script && c.k <= |c.script| && (c.k == ctxs[id].k || c.k == ctxs[id].k + 1)
    ensures var a := if c.k == ctxs[id].k then [] else [c.script[ctxs[id].k]];
      Sum(StoresLeft(ctxs[id := c])) == Sum(StoresLeft(ctxs)) - StoresIn(a)
  {
    var k := ctxs[id].k;
    var left := StoresLeft(ctxs);
    assert StoresLeft(ctxs[id := c]) == left[id := StoresIn(c.script[c.k..])];
    SumUpdate(left, id, StoresIn(c.script[c.k..]));
    if c.k == k + 1 {
      assert c.script[k..][0] == c.script[k] && c.script[k..][1..] == c.script[k + 1..];
      assert StoresIn([c.script[k]][1..]) == 0;
    }
  }

  /** Performing script[k] moves its stores from outstanding to performed, or to a child. */
  lemma DidConserved(ctxs: seq<Ctx>, trace: seq<Entry>, id: nat, c': Ctx)
    requires id < |ctxs| && forall j :: 0 <= j < |ctxs| ==> ctxs[j].k <= |ctxs[j].script|
    requires var c := ctxs[id]; c.k < |c.script| && c'.script == c.script && c'.k == c.k + 1
    ensures var a := ctxs[id].script[ctxs[id].k];
      var ctxs' := ctxs[id := c'] + if a.Spawn? then [NewCtx(a.body)] else [];
      && (forall j :: 0 <= j < |ctxs'| ==> ctxs'[j].k <= |ctxs'[j].script|)
      && Stores(trace + [Deed(id, ctxs[id], c')]) + Sum(StoresLeft(ctxs')) == Stores(trace) + Sum(StoresLeft(ctxs))
      && StoresLaunched(trace + [Deed(id, ctxs[id], c')]) == StoresLaunched(trace)
  {
    var a := ctxs[id].script[ctxs[id].k];
    StoresLeftUpdate(ctxs, id, c');
    StoresSnoc(trace, Deed(id, ctxs[id], c'));
    LaunchedSnoc(trace, Deed(id, ctxs[id], c'));
    assert [a][1..] == [];
    if a.Spawn? {
      StoresLeftSnoc(ctxs[id := c'], a.body);
    } else {
      assert ctxs[id := c'] + [] == ctxs[id := c'];
    }
  }

  /** A coroutine goes on, by at most one action, and bears a child if that is a spawn. */
  lemma StepConserved(w: World, v: World, id: nat, c': Ctx, done: bool)
    requires Conserved(w) && id < |w.ctxs| && c'.script == w.ctxs[id].script
    requires if done then w.ctxs[id].k < |c'.script| && c'.k == w.ctxs[id].k + 1 else c'.k == w.ctxs[id].k
    requires var c := w.ctxs[id];
      v.ctxs == w.ctxs[id := c'] + if done && c.script[c.k].Spawn? then [NewCtx(c.script[c.k].body)] else []
    requires v.trace == w.trace + if done then [Deed(id, w.ctxs[id], c')] else []
    ensures Conserved(v)
  {
    hide Stores, StoresLaunched;
    if done {
      DidConserved(w.ctxs, w.trace, id, c');
    } else {
      StoresLeftUpdate(w.ctxs, id, c');
      assert v.ctxs == w.ctxs[id := c'] && v.trace == w.trace;
    }
  }

  lemma UserConserved(w: World, m: Move)
    requires CanMove(w, m) && m.User? && Shaped(w) && Conserved(w) && Registered(w.sys)
    ensures Conserved(Perform(w, m))
  {
    hide Behave, Apply, Conserved, Registered, Over;
    var id, st := RunId(w, m.i), StepOf(w, m);
    RunnerNotOver(w, m.i);
    BehaveInOrder(w.ctxs[id], w.sys.procs[m.i], w.locked, w.data, m);
    StepConserved(w, Perform(w, m), id, st.ctx, st.done);
  }

  lemma LaunchConserved(w: World, v: World, script: seq<Action>)
    requires Conserved(w) && v.ctxs == w.ctxs + [NewCtx(script)] && v.trace == w.trace + [Root(script)]
    ensures Conserved(v)
  {
    hide StoresIn, Stores, StoresLaunched;
    StoresSnoc(w.trace, Root(script));
    LaunchedSnoc(w.trace, Root(script));
    StoresLeftSnoc(w.ctxs, script);
  }

  lemma MoveConserved(w: World, m: Move)
    requires Good(w) && CanMove(w, m) && Conserved(w)
    ensures Conserved(Perform(w, m))
  {
    hide Apply, Conserved;
    assert Registered(w.sys);
    match m
    case Kernel(_) => ConservedFrame(w, Perform(w, m));
    case Launch(_, _, _, script) => LaunchConserved(w, Perform(w, m), script);
    case User(_, _, _, _) => UserConserved(w, m);
  }

  lemma ConservedFrame(w: World, v: World)
    requires Conserved(w) && v.ctxs == w.ctxs && v.trace == w.trace
    ensures Conserved(v)
  {
  }

  lemma {:induction false} StoresConserved(n: nat, start: int, ms: seq<Move>, w: World)
    requires Play(Boot(n, start), ms) == Some(w)
    ensures Conserved(w)
  {
    if ms != [] {
      hide Conserved, Good, CanMove, Perform;
      var init := ms[..|ms| - 1];
      var v := Play(Boot(n, start), init).value;
      StoresConserved(n, start, init, v);
      PlayGood(n, start, init);
      MoveConserved(v, ms[|ms| - 1]);
    }
  }

  /** No coroutine has panicked, whether by itself or for a failed lock. */
  ghost predicate NonePanicked(ctxs: seq<Ctx>) {
    forall id :: 0 <= id < |ctxs| ==> !ctxs[id].unwinding && !ctxs[id].poisoned
  }

  /** The mutex test of the source, for every program and any number of threads: once they
      have all returned, no release was a steal and no coroutine has panicked, the protected
      integer has grown by exactly the number of stores written in the launched scripts and
      all they spawn. */
  lemma EveryStoreCounts(n: nat, start: int, ms: seq<Move>, w: World)
    requires n > 0 && Play(Boot(n, start), ms) == Some(w) && LaunchesDisciplined(ms) && NeverSteals(Boot(n, start), ms)
    requires (forall i :: 0 <= i < |w.sys.procs| ==> w.sys.procs[i].pc == Exited(true)) && NonePanicked(w.ctxs)
    ensures w.data == start + StoresLaunched(w.trace) && !w.locked
  {
    LawsHold(n, start, ms, w);
    NothingLeft(n, start, ms, w);
    NoneOutstanding(w, start);
  }

  lemma LawsHold(n: nat, start: int, ms: seq<Move>, w: World)
    requires Play(Boot(n, start), ms) == Some(w) && LaunchesDisciplined(ms) && NeverSteals(Boot(n, start), ms)
    ensures Good(w) && Exclusive(w) && Current(w, start) && Conserved(w)
  {
    NoLostUpdates(n, start, ms, w);
    StoresConserved(n, start, ms, w);
    PlayGood(n, start, ms);
  }

  lemma NothingLeft(n: nat, start: int, ms: seq<Move>, w: World)
    requires n > 0 && Play(Boot(n, start), ms) == Some(w)
    requires forall i :: 0 <= i < |w.sys.procs| ==> w.sys.procs[i].pc == Exited(true)
    ensures w.sys.heap == map[]
  {
    RunCompletes(n, start, ms, w);
  }

  lemma NoneOutstanding(w: World, start: int)
    requires Good(w) && w.sys.heap == map[] && Exclusive(w) && Current(w, start) && Conserved(w)
    requires forall id :: 0 <= id < |w.ctxs| ==> !w.ctxs[id].unwinding
    ensures w.data == start + StoresLaunched(w.trace) && !w.locked
  {
    AllEnded(w);
    assert forall id :: 0 <= id < |w.ctxs| ==> w.ctxs[id].script[w.ctxs[id].k..] == [];
    SumZeros(StoresLeft(w.ctxs));
    assert forall h: nat :: !Holder(w.ctxs, h);
  }

  lemma AllEnded(w: World)
    requires Good(w) && w.sys.heap == map[]
    ensures forall id :: 0 <= id < |w.ctxs| ==> w.ctxs[id].ended && w.ctxs[id].guards == 0
    ensures forall id :: 0 <= id < |w.ctxs| && !w.ctxs[id].unwinding ==> w.ctxs[id].k == |w.ctxs[id].script|
  {
    assert Registered(w.sys);
    forall id | 0 <= id < |w.ctxs| ensures Over(w.sys, id) {
    }
  }
}
