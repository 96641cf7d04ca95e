/** What each action does when it is performed, over all runs on any number of processors:
    when it panics, how control leaves it, what it stores. */
module Actions {
  import opened Basics
  import opened Protocol
  import opened Invariant
  import opened LifeCycle
  import opened Programs
  import opened Traces
  import opened RetryBound
  import opened LockCalls
  import opened Waiting

  /** Coroutine x performs action a with this move. */
  ghost predicate Performs(w: World, m: Move, x: nat, a: Action, threw: bool) {
    CanMove(w, m) && Perform(w, m).trace == w.trace + [Did(x, a, threw)]
  }

  /** The event by which control leaves a performed action, if it does. */
  function Leaves(m: Move, a: Action, threw: bool): Option<Event>
    requires m.User?
  {
    match a
    case Yield => Some(Sched(m.i))
    case Spawn(_) => Some(SpawnCreate(m.i, m.ptr, m.stack))
    case Wait => if threw then None else Some(WaitInsert(m.i, m.token))
    case _ => None
  }

  /** A step that performs action a, seen from its coroutine. */
  ghost predicate Acts(c: Ctx, p: Proc, locked: bool, data: int, m: Move, st: Step, a: Action)
    requires m.User?
  {
    var threw := st.ctx.unwinding && !c.unwinding;
    && !c.unwinding && !c.dropping && (a.Spawn? <==> p.pc.Counted?) && !p.pc.InWait?
    && (threw <==> match a
                   case Throw => true
                   case Wait => |p.slab| >= 102400
                   case Lock => c.tries == 102400
                   case TryLock => locked
                   case _ => false)
    && st.event == Leaves(m, a, threw)
    && st.data == (if a.Store? then c.reg + 1 else data)
    && st.ctx.reg == (if a.Load? then data else c.reg)
    && (a.Lock? || a.TryLock? ==> if threw then st.locked == locked else !locked && st.locked)
    && (a.Unlock? ==> st.locked == (locked && c.guards == 0))
    && (!a.Lock? && !a.TryLock? && !a.Unlock? ==> st.locked == locked)
  }

  lemma MutexActs(c: Ctx, p: Proc, locked: bool, data: int, m: Move)
    requires m.User? && Sound(c) && !c.ended && c.k < |c.script| && Behave(c, p, locked, data, m).done
    requires var a := c.script[c.k]; a.Lock? || a.TryLock? || a.Unlock?
    requires p.pc.Counted? ==> AtSpawn(c)
    ensures Acts(c, p, locked, data, m, Behave(c, p, locked, data, m), c.script[c.k])
  {
  }

  lemma PlainActs(c: Ctx, p: Proc, locked: bool, data: int, m: Move)
    requires m.User? && Sound(c) && !c.ended && c.k < |c.script| && Behave(c, p, locked, data, m).done
    requires var a := c.script[c.k]; !a.Lock? && !a.TryLock? && !a.Unlock?
    requires p.pc.Counted? ==> AtSpawn(c)
    ensures Acts(c, p, locked, data, m, Behave(c, p, locked, data, m), c.script[c.k])
  {
  }

  /** The step behind a performed action. */
  lemma PerformedStep(w: World, m: Move, x: nat, a: Action, threw: bool)
    requires Good(w) && Performs(w, m, x, a, threw)
    ensures m.User? && InUser(w, m.i) && RunId(w, m.i) == x
    ensures w.ctxs[x].k < |w.ctxs[x].script| && w.ctxs[x].script[w.ctxs[x].k] == a
    ensures Acts(w.ctxs[x], w.sys.procs[m.i], w.locked, w.data, m, StepOf(w, m), a)
    ensures threw <==> StepOf(w, m).ctx.unwinding && !w.ctxs[x].unwinding
    ensures Does(w, m, x)
  {
    hide Behave, Apply, Good, Acts;
    assert |Perform(w, m).trace| == |w.trace| + 1 && Perform(w, m).trace[|w.trace|] == Did(x, a, threw);
    if m.User? {
      CodeIsDefined(w, m);
      var c := w.ctxs[x];
      if a.Lock? || a.TryLock? || a.Unlock? {
        MutexActs(c, w.sys.procs[m.i], w.locked, w.data, m);
      } else {
        PlainActs(c, w.sys.procs[m.i], w.locked, w.data, m);
      }
    }
  }

  lemma TriesAre(n: nat, data: int, ms: seq<Move>, w: World, x: nat)
    requires Play(Boot(n, data), ms) == Some(w) && x < |w.ctxs|
    ensures w.ctxs[x].tries == CallFails(Boot(n, data), ms, x)
  {
    hide Play;
    TriedRun(n, data, ms, x);
  }

  /** When a performed action panics, exactly: a throw always, a wait when 102400 are parked
      on its thread, a lock after 102400 failed attempts, a try_lock when the flag is set, and
      nothing else ever. */
  lemma PanicsIff(n: nat, data: int, ms: seq<Move>, w: World, m: Move, x: nat, a: Action, threw: bool)
    requires Play(Boot(n, data), ms) == Some(w) && Performs(w, m, x, a, threw)
    ensures m.User? && InUser(w, m.i)
    ensures threw <==> match a
                       case Throw => true
                       case Wait => |w.sys.procs[m.i].slab| == 102400
                       case Lock => CallFails(Boot(n, data), ms, x) == 102400
                       case TryLock => w.locked
                       case _ => false
  {
    hide Play, Perform, CanMove, Good, Performs, CallFails;
    PlayGood(n, data, ms);
    PerformedStep(w, m, x, a, threw);
    TriesAre(n, data, ms, w, x);
    SlabOfRun(n, data, ms, w, m.i);
  }

  // ---- how control leaves a coroutine -----------------------------------------------------

  /** A performed action leaves its coroutine as it should: a yield and a spawn by sched, a
      wait that does not panic into the slab, and no other action at all; the child of a spawn
      has the spawned script. */
  lemma SwitchesIff(n: nat, data: int, ms: seq<Move>, w: World, m: Move, x: nat, a: Action, threw: bool)
    requires Play(Boot(n, data), ms) == Some(w) && Performs(w, m, x, a, threw)
    ensures m.User? && EventOf(w, m) == Leaves(m, a, threw)
    ensures var v := Perform(w, m);
      |v.ctxs| == |w.ctxs| + (if a.Spawn? then 1 else 0) && (a.Spawn? ==> v.ctxs[|w.ctxs|] == NewCtx(a.body))
  {
    hide Play, Good, Performs, Behave, Apply;
    PlayGood(n, data, ms);
    PerformedStep(w, m, x, a, threw);
    PerformsMoves(w, m, x, a, threw);
  }

  lemma PerformsMoves(w: World, m: Move, x: nat, a: Action, threw: bool)
    requires Performs(w, m, x, a, threw)
    ensures CanMove(w, m)
  {
  }

  lemma OtherSteps(c: Ctx, p: Proc, locked: bool, data: int, m: Move)
    requires m.User? && Sound(c) && !c.ended && !(Behave(c, p, locked, data, m).done && c.k < |c.script|)
    requires p.pc.Counted? ==> AtSpawn(c)
    ensures var st := Behave(c, p, locked, data, m); st.event.Some? ==>
      match st.event.value
      case Sched(i) => i == m.i && c.k < |c.script| && c.script[c.k].Lock? && locked && !c.unwinding && !c.dropping
      case SpawnCount(i) => i == m.i && c.k < |c.script| && c.script[c.k].Spawn?
      case Block(i) => i == m.i && p.pc.InWait?
      case Return(i) => i == m.i && c.k == |c.script| && !c.unwinding && c.guards == 0
      case Panic(i) => i == m.i && c.unwinding && c.guards == 0
      case _ => false
  {
  }

  /** Nothing but a performed yield or spawn and a failed attempt to lock a set flag gives
      the processor away and remains runnable. */
  lemma YieldsIff(n: nat, data: int, ms: seq<Move>, w: World, m: Move)
    requires Play(Boot(n, data), ms) == Some(w) && CanMove(w, m) && m.User? && EventOf(w, m).Some?
    requires YieldOf(EventOf(w, m).value) == Some(Ok(Suspended))
    ensures var x := RunId(w, m.i); var c := w.ctxs[x];
      c.k < |c.script| &&
      if Does(w, m, x) then c.script[c.k].Yield? || c.script[c.k].Spawn?
      else c.script[c.k].Lock? && w.locked && CallFails(Boot(n, data), ms, x) < 102400
  {
    hide Play, Behave, Apply, Good;
    PlayGood(n, data, ms);
    CodeIsDefined(w, m);
    var x := RunId(w, m.i);
    DoesIff(w, m, x);
    if Does(w, m, x) {
      YieldingStep(w.ctxs[x], w.sys.procs[m.i], w.locked, w.data, m);
    } else {
      OtherSteps(w.ctxs[x], w.sys.procs[m.i], w.locked, w.data, m);
      RetryingStep(w.ctxs[x], w.sys.procs[m.i], w.locked, w.data, m);
      TriesAre(n, data, ms, w, x);
      TriedRun(n, data, ms, x);
    }
  }

  lemma YieldingStep(c: Ctx, p: Proc, locked: bool, data: int, m: Move)
    requires m.User? && Sound(c) && !c.ended && c.k < |c.script| && (p.pc.Counted? ==> AtSpawn(c))
    requires var st := Behave(c, p, locked, data, m);
      st.done && st.event.Some? && YieldOf(st.event.value) == Some(Ok(Suspended))
    ensures c.script[c.k].Yield? || c.script[c.k].Spawn?
  {
  }

  lemma RetryingStep(c: Ctx, p: Proc, locked: bool, data: int, m: Move)
    requires m.User? && Sound(c) && !c.ended && (p.pc.Counted? ==> AtSpawn(c))
    requires !(Behave(c, p, locked, data, m).done && c.k < |c.script|)
    requires Behave(c, p, locked, data, m).event == Some(Sched(m.i))
    ensures c.tries != POISON_RETRY_COUNT
  {
  }

  /** A coroutine ends by a panic if and only if the last action that it has performed has
      panicked, and else with its script performed in full; its guards are dropped before. */
  lemma EndsAsThrown(n: nat, data: int, ms: seq<Move>, w: World, m: Move)
    requires Play(Boot(n, data), ms) == Some(w) && CanMove(w, m) && m.User?
    requires EventOf(w, m).Some? && Ends(EventOf(w, m).value)
    ensures var x, threw := RunId(w, m.i), Throws(w.trace, RunId(w, m.i));
      && (EventOf(w, m).value.Panic? <==> threw != [] && threw[|threw| - 1])
      && (EventOf(w, m).value.Return? ==> Projection(w.trace, x) == w.ctxs[x].script)
      && w.ctxs[x].guards == 0 && Perform(w, m).trace == w.trace
  {
    hide Play, Behave, Apply, Good, Projection, Throws;
    PlayGood(n, data, ms);
    CodeIsDefined(w, m);
    var x := RunId(w, m.i);
    var c := w.ctxs[x];
    EndingStep(c, w.sys.procs[m.i], w.locked, w.data, m);
    TraceOf(w, x);
    assert c.k == |c.script| ==> c.script[..c.k] == c.script;
  }

  lemma TraceOf(w: World, x: nat)
    requires Good(w) && x < |w.ctxs|
    ensures w.ctxs[x].k <= |w.ctxs[x].script|
    ensures Projection(w.trace, x) == w.ctxs[x].script[..w.ctxs[x].k] && Throws(w.trace, x) == Flags(w.ctxs[x])
  {
  }

  lemma EndingStep(c: Ctx, p: Proc, locked: bool, data: int, m: Move)
    requires m.User? && Sound(c) && !c.ended && (p.pc.Counted? ==> AtSpawn(c))
    requires var e := Behave(c, p, locked, data, m).event; e.Some? && Ends(e.value)
    ensures var st := Behave(c, p, locked, data, m);
      (st.event.value.Panic? <==> c.unwinding) && (!c.unwinding ==> c.k == |c.script|) && c.guards == 0 && !st.done
  {
  }

  // ---- what a store writes ----------------------------------------------------------------

  /** What coroutine x has found at its latest load, or 0. */
  function LastRead(w: World, ms: seq<Move>, x: nat): int
    requires Play(w, ms).Some?
  {
    if ms == [] then 0 else
      var init, m := ms[..|ms| - 1], ms[|ms| - 1];
      var v := Play(w, init).value;
      if Loads(v, m, x) then v.data else LastRead(w, init, x)
  }

  /** Coroutine x performs a load with this move. */
  predicate Loads(w: World, m: Move, x: nat) {
    CanMove(w, m) && Perform(w, m).trace == w.trace + [Did(x, Load, false)]
  }

  lemma ReadStep(c: Ctx, p: Proc, locked: bool, data: int, m: Move)
    requires m.User? && Sound(c) && !c.ended && (p.pc.Counted? ==> AtSpawn(c))
    ensures var st := Behave(c, p, locked, data, m);
      && st.ctx.reg == (if st.done && c.k < |c.script| && c.script[c.k].Load? then data else c.reg)
      && (st.done && c.k < |c.script| && c.script[c.k].Load? ==> st.ctx.unwinding == c.unwinding)
      && st.data == (if st.done && c.k < |c.script| && c.script[c.k].Store? then c.reg + 1 else data)
  {
  }

  lemma UserReads(w: World, m: Move)
    requires Good(w) && CanMove(w, m) && m.User?
    ensures var x, v := RunId(w, m.i), Perform(w, m);
      x < |v.ctxs| && v.ctxs[x].reg == if Loads(w, m, x) then w.data else w.ctxs[x].reg
  {
    hide Behave, Apply, Good;
    var x := RunId(w, m.i);
    CodeIsDefined(w, m);
    ReadStep(w.ctxs[x], w.sys.procs[m.i], w.locked, w.data, m);
    if Perform(w, m).trace != w.trace {
      assert Perform(w, m).trace[|w.trace|] == Deed(x, w.ctxs[x], StepOf(w, m).ctx);
    }
  }

  lemma MoveReads(w: World, m: Move, x: nat, r: int)
    requires Good(w) && CanMove(w, m) && (if x < |w.ctxs| then w.ctxs[x].reg == r else r == 0)
    ensures var v, r' := Perform(w, m), if Loads(w, m, x) then w.data else r;
      if x < |v.ctxs| then v.ctxs[x].reg == r' else r' == 0
  {
    hide Behave, Apply, Good;
    if Loads(w, m, x) {
      LoadsOwn(w, m, x);
    }
    if m.User? && RunId(w, m.i) == x {
      UserReads(w, m);
    }
  }

  lemma LoadsOwn(w: World, m: Move, x: nat)
    requires Loads(w, m, x)
    ensures m.User? && RunId(w, m.i) == x
  {
    hide Behave, Apply;
    assert |Perform(w, m).trace| == |w.trace| + 1 && Perform(w, m).trace[|w.trace|] == Did(x, Load, false);
  }

  lemma {:induction false} RegIsLastRead(n: nat, data: int, ms: seq<Move>, x: nat)
    requires Play(Boot(n, data), ms).Some?
    ensures var w, r := Play(Boot(n, data), ms).value, LastRead(Boot(n, data), ms, x);
      if x < |w.ctxs| then w.ctxs[x].reg == r else r == 0
  {
    if ms != [] {
      hide Perform, CanMove, Good, Loads, Newborn, EventOf, InUser, RunId;
      var init := ms[..|ms| - 1];
      RegIsLastRead(n, data, init, x);
      PlayGood(n, data, init);
      MoveReads(Play(Boot(n, data), init).value, ms[|ms| - 1], x, LastRead(Boot(n, data), init, x));
    }
  }

  /** A store writes one more than its coroutine has found at its latest load, locked or not,
      and nothing else writes the data. The flag is set by a lock or try_lock that does not
      panic, which has found it clear, and touched by no other action than an unlock. */
  lemma StoresLastRead(n: nat, data: int, ms: seq<Move>, w: World, m: Move, x: nat, a: Action, threw: bool)
    requires Play(Boot(n, data), ms) == Some(w) && Performs(w, m, x, a, threw)
    ensures var v := Perform(w, m);
      && v.data == (if a.Store? then LastRead(Boot(n, data), ms, x) + 1 else w.data)
      && ((a.Lock? || a.TryLock?) && !threw ==> !w.locked && v.locked)
      && (((a.Lock? || a.TryLock?) && threw) || !(a.Lock? || a.TryLock? || a.Unlock?) ==> v.locked == w.locked)
  {
    hide Play, Good, Performs, Behave, Apply, LastRead;
    PlayGood(n, data, ms);
    PerformedStep(w, m, x, a, threw);
    PerformsMoves(w, m, x, a, threw);
    RegIsLastRead(n, data, ms, x);
  }
}
