/** What a call of lock answers, by the number of attempts that it has made: over all runs,
    on any number of processors. */
module LockCalls {
  import opened Basics
  import opened Protocol
  import opened Ownership
  import opened Programs
  import opened Traces
  import opened RetryBound

  /** The failed attempts of the lock call that coroutine x is in: those since it last
      performed an action. */
  function CallFails(w: World, ms: seq<Move>, x: nat): nat
    requires Play(w, ms).Some?
  {
    if ms == [] then 0 else
      var init, m := ms[..|ms| - 1], ms[|ms| - 1];
      var v := Play(w, init).value;
      if Does(v, m, x) then 0 else CallFails(w, init, x) + if Fails(v, m, x) then 1 else 0
  }

  /** Of the failures of x in a run, those of its present call are some. */
  lemma {:induction false} CallFailsCounted(w: World, ms: seq<Move>, x: nat)
    requires Play(w, ms).Some?
    ensures CallFails(w, ms, x) <= FailCount(w, ms, x)
  {
    if ms != [] {
      CallFailsCounted(w, ms[..|ms| - 1], x);
    }
  }

  /** The next step of coroutine x, which processor i executes, is its call of lock. */
  predicate AtLock(w: World, i: nat, x: nat) {
    InUser(w, i) && w.sys.procs[i].pc.Executing? && RunId(w, i) == x &&
    var c := w.ctxs[x];
    !c.dropping && !c.unwinding && c.k < |c.script| && c.script[c.k].Lock?
  }

  /** The loop counter in a continuation is the number of failed attempts of its call. */
  predicate Tried(c: Ctx, f: nat) {
    && c.tries == f && f <= POISON_RETRY_COUNT
    && (f > 0 ==> !c.dropping && !c.unwinding && !c.ended && c.k < |c.script| && c.script[c.k].Lock?)
  }

  lemma TriedStep(c: Ctx, p: Proc, locked: bool, data: int, m: Move)
    requires m.User? && Sound(c) && !c.ended && Tried(c, c.tries) && (p.pc.Counted? ==> AtSpawn(c)) && !p.pc.InWait?
    ensures var st := Behave(c, p, locked, data, m);
      Tried(st.ctx, if st.done then 0 else if st.ctx.tries > c.tries then c.tries + 1 else c.tries)
  {
  }

  lemma WaitingStep(c: Ctx, p: Proc, locked: bool, data: int, m: Move)
    requires m.User? && c.k <= |c.script| && p.pc.InWait?
    ensures Behave(c, p, locked, data, m) == Step(c, false, Some(Block(m.i)), locked, data)
  {
  }

  lemma UserTried(w: World, m: Move, x: nat, f: nat)
    requires CanMove(w, m) && m.User? && Shaped(w) && Registered(w.sys) && RunId(w, m.i) == x && Tried(w.ctxs[x], f)
    ensures Tried(StepOf(w, m).ctx, if Does(w, m, x) then 0 else f + if Fails(w, m, x) then 1 else 0)
  {
    hide Behave, Apply;
    var c, p := w.ctxs[x], w.sys.procs[m.i];
    RunnerNotOver(w, m.i);
    BehaveInOrder(c, p, w.locked, w.data, m);
    DoesIff(w, m, x);
    FailsIff(w, m, x);
    if p.pc.InWait? {
      WaitingStep(c, p, w.locked, w.data, m);
    } else {
      TriedStep(c, p, w.locked, w.data, m);
    }
  }

  lemma TriedMove(w: World, m: Move, x: nat, f: nat)
    requires Good(w) && CanMove(w, m) && (if x < |w.ctxs| then Tried(w.ctxs[x], f) else f == 0)
    ensures var v, f' := Perform(w, m), if Does(w, m, x) then 0 else f + if Fails(w, m, x) then 1 else 0;
      if x < |v.ctxs| then Tried(v.ctxs[x], f') else f' == 0
  {
    hide Behave, Apply, Placed, Controlled, Booting, Accounted, Traced;
    var pl :| Inv(w.sys, pl);
    if m.User? && RunId(w, m.i) == x {
      UserTried(w, m, x, f);
    }
  }

  lemma LastMove(w0: World, ms: seq<Move>, x: nat)
    requires ms != [] && Play(w0, ms).Some?
    ensures var init, m := ms[..|ms| - 1], ms[|ms| - 1];
      && Play(w0, init).Some? && CanMove(Play(w0, init).value, m)
      && Play(w0, ms) == Some(Perform(Play(w0, init).value, m))
      && CallFails(w0, ms, x) ==
           if Does(Play(w0, init).value, m, x) then 0
           else CallFails(w0, init, x) + if Fails(Play(w0, init).value, m, x) then 1 else 0
  {
    hide Perform, CanMove, Does, Fails;
  }

  lemma TriedStart(n: nat, data: int, x: nat)
    ensures Play(Boot(n, data), []) == Some(Boot(n, data)) && CallFails(Boot(n, data), [], x) == 0
    ensures Boot(n, data).ctxs == []
  {
  }

  lemma {:induction false} TriedRun(n: nat, data: int, ms: seq<Move>, x: nat)
    requires Play(Boot(n, data), ms).Some?
    ensures var w, f := Play(Boot(n, data), ms).value, CallFails(Boot(n, data), ms, x);
      if x < |w.ctxs| then Tried(w.ctxs[x], f) else f == 0
  {
    hide Play, CallFails, Tried, Does, Fails, Perform, CanMove, Good, Boot;
    if ms == [] {
      TriedStart(n, data, x);
    } else {
      var init := ms[..|ms| - 1];
      LastMove(Boot(n, data), ms, x);
      TriedRun(n, data, init, x);
      PlayGood(n, data, init);
      TriedMove(Play(Boot(n, data), init).value, ms[|ms| - 1], x, CallFails(Boot(n, data), init, x));
    }
  }

  /** The answer of one step at a lock call that has failed f times. */
  ghost predicate Answers(w: World, m: Move, x: nat, f: nat)
    requires m.User? && CanMove(w, m) && x < |w.ctxs|
  {
    var v := Perform(w, m);
    && |v.ctxs| == |w.ctxs| && v.data == w.data
    && (f == 102400 ==>
         && v.trace == w.trace + [Did(x, Lock, true)] && v.sys == w.sys && v.locked == w.locked
         && v.ctxs[x].poisoned && v.ctxs[x].unwinding && v.ctxs[x].guards == w.ctxs[x].guards)
    && (f < 102400 && !w.locked ==>
         && v.trace == w.trace + [Did(x, Lock, false)] && v.sys == w.sys && v.locked
         && v.ctxs[x].guards == w.ctxs[x].guards + 1)
    && (f < 102400 && w.locked ==>
         && v.trace == w.trace && EventOf(w, m) == Some(Sched(m.i)) && v.locked
         && v.ctxs[x].guards == w.ctxs[x].guards && v.ctxs[x].k == w.ctxs[x].k)
  }

  lemma StepAnswers(w: World, m: Move, x: nat, f: nat)
    requires m.User? && AtLock(w, m.i, x) && Tried(w.ctxs[x], f)
    ensures CanMove(w, m) && Answers(w, m, x, f)
  {
    var c, st := w.ctxs[x], StepOf(w, m);
    assert st == if f == 102400 then Poison(c, w.locked, w.data) else if !w.locked then Acquire(c, w.data)
      else Step(c.(tries := c.tries + 1), false, Some(Sched(m.i)), w.locked, w.data);
    assert CanMove(w, m);
    assert w.ctxs[x := st.ctx] + [] == w.ctxs[x := st.ctx];
  }

  /** What lock answers, in every run on any number of processors: with the flag clear it
      takes the lock, with the flag set it yields to try again, and after 102400 attempts it
      panics without taking the lock, whether the flag is set or clear by then. */
  lemma LockAnswers(n: nat, data: int, ms: seq<Move>, w: World, m: Move, x: nat)
    requires Play(Boot(n, data), ms) == Some(w) && m.User? && AtLock(w, m.i, x)
    ensures CanMove(w, m) && CallFails(Boot(n, data), ms, x) <= 102400
    ensures Answers(w, m, x, CallFails(Boot(n, data), ms, x))
    ensures Play(Boot(n, data), ms + [m]).Some?
    ensures w.locked && CallFails(Boot(n, data), ms, x) < 102400 ==>
      CallFails(Boot(n, data), ms + [m], x) == CallFails(Boot(n, data), ms, x) + 1
  {
    hide Play, Perform, CanMove;
    TriedRun(n, data, ms, x);
    var f := CallFails(Boot(n, data), ms, x);
    StepAnswers(w, m, x, f);
    PlaySnoc(Boot(n, data), ms, w, m);
    CallFailsSnoc(Boot(n, data), ms, w, m, x);
  }

  lemma CallFailsSnoc(w0: World, ms: seq<Move>, w: World, m: Move, x: nat)
    requires Play(w0, ms) == Some(w) && CanMove(w, m) && Play(w0, ms + [m]).Some?
    ensures CallFails(w0, ms + [m], x) ==
      if Does(w, m, x) then 0 else CallFails(w0, ms, x) + if Fails(w, m, x) then 1 else 0
  {
    assert (ms + [m])[..|ms|] == ms;
  }

  /** A coroutine that performs a lock is at that call, and has not tried too often or has. */
  lemma LockIsAtLock(w: World, m: Move, x: nat, threw: bool)
    requires Good(w) && CanMove(w, m) && Perform(w, m).trace == w.trace + [Did(x, Lock, threw)]
    ensures m.User? && AtLock(w, m.i, x)
  {
    hide Apply, Placed, Controlled, Booting, Accounted, Traced;
    assert Perform(w, m).trace[|w.trace|] == Did(x, Lock, threw);
    var pl :| Inv(w.sys, pl);
    RunnerNotOver(w, m.i);
  }

  /** A lock call panics if and only if it has failed 102400 times. */
  lemma LockPanicsIff(n: nat, data: int, ms: seq<Move>, w: World, m: Move, x: nat, threw: bool)
    requires Play(Boot(n, data), ms) == Some(w) && CanMove(w, m)
    requires Perform(w, m).trace == w.trace + [Did(x, Lock, threw)]
    ensures threw <==> CallFails(Boot(n, data), ms, x) == 102400
  {
    hide Play, CanMove, AtLock, Perform;
    PlayGood(n, data, ms);
    LockIsAtLock(w, m, x, threw);
    LockAnswers(n, data, ms, w, m, x);
    assert |Perform(w, m).trace| == |w.trace| + 1 && Perform(w, m).trace[|w.trace|] == Did(x, Lock, threw);
  }

  /** In plain numbers, on one processor: while one coroutine holds the lock and yields fewer
      than 102400 times, no lock call that another one begins meanwhile panics. */
  lemma HoldCannotPanic(w: World, ms: seq<Move>, v: World, m: Move, x: nat, h: nat, threw: bool)
    requires Good(w) && Play(w, ms) == Some(v) && x != h && HoldsThroughout(w, ms, h)
    requires |w.sys.procs| == 1 && h < |w.sys.births| && Runs(w.sys, w.sys.births[h])
    requires (x < |w.ctxs| ==> w.ctxs[x].tries == 0) && YieldCount(w, ms, h) < 102400
    requires CanMove(v, m) && Perform(v, m).trace == v.trace + [Did(x, Lock, threw)]
    ensures !threw
  {
    hide Play, Perform, CanMove, HoldsThroughout;
    BoundRun(w, ms, x, h);
    LockIsAtLock(v, m, x, threw);
    HoldCannotExhaust(w, ms, x, h);
    PerformedLock(v, m, x, threw);
  }

  lemma PerformedLock(w: World, m: Move, x: nat, threw: bool)
    requires m.User? && AtLock(w, m.i, x) && w.ctxs[x].tries < 102400 && CanMove(w, m)
    requires Perform(w, m).trace == w.trace + [Did(x, Lock, threw)]
    ensures !threw
  {
    assert Perform(w, m).trace[|w.trace|] == Did(x, Lock, threw);
  }
}
