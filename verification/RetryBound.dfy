/** How often a waiter can fail while one coroutine holds the lock, on one processor. */
module RetryBound {
  import opened Basics
  import opened Protocol
  import opened Ownership
  import opened Invariant
  import opened LifeCycle
  import opened Fairness
  import opened Programs
  import opened Traces

  /** Coroutine number id is live. */
  predicate Alive(s: Sys, id: nat) {
    id < |s.births| && s.births[id] in s.heap && s.heap[s.births[id]].id == id
  }

  /** The processor is in the code of the coroutine at p. */
  predicate Runs(s: Sys, p: Ptr) {
    |s.procs| == 1 && (s.procs[0].pc.Executing? || s.procs[0].pc.Counted? || s.procs[0].pc.InWait?) &&
      s.procs[0].pc.hdl == p
  }

  ghost predicate Before(q: seq<Ptr>, a: Ptr, b: Ptr) {
    forall i, j :: 0 <= i < |q| && 0 <= j < |q| && q[i] == a && q[j] == b ==> i < j
  }

  /** Coroutine x will run, or is running, before coroutine h runs again. */
  ghost predicate First(s: Sys, x: nat, h: nat)
    requires h < |s.births| && |s.procs| == 1
  {
    Alive(s, x) && !Runs(s, s.births[h]) &&
    var p := s.births[x];
    || Runs(s, p)
    || s.procs[0].newSpawned == Some(p)
    || (p in s.queue && Before(s.queue, p, s.births[h]))
  }

  /** h is running, or holds its place between yielding and its next turn. */
  ghost predicate Holding(s: Sys, h: nat) {
    |s.procs| == 1 && Alive(s, h) && Runnable(s, s.births[h])
  }

  lemma QueueEffect(s: Sys, e: Event)
    requires Legal(s, e) && |s.procs| == 1 && Control(s.procs[0], s.heap)
    ensures var q := Apply(s, e).queue;
      || q == s.queue
      || (e.Pop? && s.queue != [] && q == s.queue[1..] && Runs(Apply(s, e), s.queue[0]))
      || (e.Push? && q == s.queue + [s.procs[0].pc.hdl] && HandOf(s.procs[0]) == Some(s.procs[0].pc.hdl))
  {
  }

  lemma RunsEffect(s: Sys, e: Event, p: Ptr)
    requires Legal(s, e) && |s.procs| == 1 && Runs(Apply(s, e), p)
    ensures Runs(s, p) || (e.Pop? && s.queue != [] && s.queue[0] == p) || (e.Drain? && s.procs[0].newSpawned == Some(p))
  {
  }

  lemma SlotEffect(s: Sys, e: Event)
    requires Legal(s, e) && |s.procs| == 1
    ensures Apply(s, e).procs[0].newSpawned == s.procs[0].newSpawned
      || (Creates(e) && Apply(s, e).procs[0].newSpawned == Some(e.ptr)) || Apply(s, e).procs[0].newSpawned.None?
  {
  }

  lemma BirthEffect(s: Sys, e: Event, x: nat)
    requires Registered(s) && Legal(s, e) && Alive(Apply(s, e), x)
    ensures s.births <= Apply(s, e).births
    ensures Alive(s, x) || (Creates(e) && x == |s.births|)
    ensures x < |s.births| ==> Apply(s, e).births[x] == s.births[x]
  {
    if Creates(e) {
      assert Apply(s, e).births == s.births + [e.ptr];
    } else if !e.Free? {
      HeapFrame(s, e);
    }
  }

  /** p comes to precede q in the queue only when q is at hand. */
  lemma QueueFirst(s: Sys, e: Event, p: Ptr, q: Ptr)
    requires Legal(s, e) && |s.procs| == 1 && Control(s.procs[0], s.heap)
    requires p != q && Runnable(s, q) && Runnable(Apply(s, e), q)
    requires p in Apply(s, e).queue && Before(Apply(s, e).queue, p, q) && !Runs(Apply(s, e), p) && !Runs(Apply(s, e), q)
    ensures Runs(s, q) || Runs(s, p) || (p in s.queue && Before(s.queue, p, q))
  {
    QueueEffect(s, e);
    var k, k' := s.queue, Apply(s, e).queue;
    if k' == k[1..] && k != [] {
      assert forall x :: 0 <= x < |k'| ==> k'[x] == k[x + 1];
    } else if k' != k {
      assert forall x :: 0 <= x < |k| ==> k'[x] == k[x];
    }
  }

  /** x comes to precede h only when h yields or when x is born. */
  lemma FirstStep(s: Sys, e: Event, x: nat, h: nat)
    requires Registered(s) && Legal(s, e) && Holding(s, h) && Holding(Apply(s, e), h) && h < |Apply(s, e).births|
    requires NoDup(s.queue) && Control(s.procs[0], s.heap) && x != h && Alive(s, x) && First(Apply(s, e), x, h)
    requires Apply(s, e).births[h] == s.births[h] && Apply(s, e).births[x] == s.births[x]
    ensures First(s, x, h) || Runs(s, s.births[h])
  {
    hide Apply;
    var s', p, q := Apply(s, e), s.births[x], s.births[h];
    assert p != q;
    if Runs(s', p) {
      RunsEffect(s, e, p);
    } else if s'.procs[0].newSpawned == Some(p) {
      SlotEffect(s, e);
    } else {
      QueueFirst(s, e, p, q);
    }
  }

  /** Coroutine h yields Suspended with this move. */
  predicate Yields(w: World, m: Move, h: nat) {
    m.User? && InUser(w, m.i) && RunId(w, m.i) == h &&
    var e := StepOf(w, m).event;
    e.Some? && YieldOf(e.value) == Some(Ok(Suspended))
  }

  /** Coroutine x performs its next action with this move. */
  predicate Does(w: World, m: Move, x: nat) {
    CanMove(w, m) && m.User? && RunId(w, m.i) == x && Perform(w, m).trace != w.trace
  }

  /** An attempt of a lock call of coroutine x fails with this move: it yields without having
      performed its action. */
  predicate Fails(w: World, m: Move, x: nat) {
    CanMove(w, m) && m.User? && RunId(w, m.i) == x && EventOf(w, m) == Some(Sched(m.i)) && !Does(w, m, x)
  }

  function YieldCount(w: World, ms: seq<Move>, h: nat): nat
    requires Play(w, ms).Some?
  {
    if ms == [] then 0 else
      YieldCount(w, ms[..|ms| - 1], h) + if Yields(Play(w, ms[..|ms| - 1]).value, ms[|ms| - 1], h) then 1 else 0
  }

  function FailCount(w: World, ms: seq<Move>, x: nat): nat
    requires Play(w, ms).Some?
  {
    if ms == [] then 0 else
      FailCount(w, ms[..|ms| - 1], x) + if Fails(Play(w, ms[..|ms| - 1]).value, ms[|ms| - 1], x) then 1 else 0
  }

  /** h has the lock and has not blocked. */
  ghost predicate HoldsOn(w: World, h: nat) {
    Holding(w.sys, h) && h < |w.ctxs| && w.ctxs[h].guards > 0
  }

  ghost predicate HoldsThroughout(w: World, ms: seq<Move>, h: nat)
    requires Play(w, ms).Some?
  {
    HoldsOn(Play(w, ms).value, h) && (ms != [] ==> HoldsThroughout(w, ms[..|ms| - 1], h))
  }

  /** After f failures of x and n yields of h: each failure is paid for by a yield, and one
      yield is still unspent whenever x may fail again before h runs. */
  ghost predicate Bound(s: Sys, x: nat, h: nat, f: nat, n: nat)
    requires |s.procs| == 1 && h < |s.births|
  {
    && f + (if First(s, x, h) then 1 else 0) <= n
    && (!Runs(s, s.births[h]) ==> n >= 1)
    && (x >= |s.births| ==> f == 0)
  }

  /** A step raises the loop counter of lock by one if it yields without having performed an
      action, and else not. */
  ghost predicate CountsFailure(c: Ctx, p: Proc, st: Step, i: nat) {
    && (st.ctx.tries > c.tries <==> st.event == Some(Sched(i)) && !(st.done && c.k < |c.script|))
    && (st.ctx.tries > c.tries ==> st.ctx.tries == c.tries + 1 && !p.pc.InWait? && !p.pc.Counted?)
  }

  lemma ActingFails(c: Ctx, p: Proc, locked: bool, data: int, m: Move)
    requires m.User? && Acting(c, p)
    ensures CountsFailure(c, p, Behave(c, p, locked, data, m), m.i)
  {
  }

  lemma FailingStep(c: Ctx, p: Proc, locked: bool, data: int, m: Move)
    requires m.User? && c.k <= |c.script|
    ensures CountsFailure(c, p, Behave(c, p, locked, data, m), m.i)
  {
    if Acting(c, p) {
      ActingFails(c, p, locked, data, m);
    }
  }

  lemma FailsIff(w: World, m: Move, x: nat)
    requires CanMove(w, m)
    ensures Fails(w, m, x) <==> m.User? && RunId(w, m.i) == x && StepOf(w, m).ctx.tries > w.ctxs[x].tries
    ensures Fails(w, m, x) ==> StepOf(w, m).ctx.tries == w.ctxs[x].tries + 1 && StepOf(w, m).event == Some(Sched(m.i))
    ensures Fails(w, m, x) ==> !w.sys.procs[m.i].pc.InWait? && !w.sys.procs[m.i].pc.Counted?
  {
    if m.User? && RunId(w, m.i) == x {
      hide Behave, Apply;
      FailingStep(w.ctxs[x], w.sys.procs[m.i], w.locked, w.data, m);
      DoesIff(w, m, x);
    }
  }

  lemma DoesIff(w: World, m: Move, x: nat)
    requires CanMove(w, m) && m.User? && RunId(w, m.i) == x
    ensures Does(w, m, x) <==> StepOf(w, m).done && w.ctxs[x].k < |w.ctxs[x].script|
    ensures Does(w, m, x) ==> Perform(w, m).trace == w.trace + [Deed(x, w.ctxs[x], StepOf(w, m).ctx)]
  {
    hide Behave, Apply;
    assert |Perform(w, m).trace| ==
      |w.trace| + if StepOf(w, m).done && w.ctxs[x].k < |w.ctxs[x].script| then 1 else 0;
  }

  /** Having failed and yielded, x is behind h. */
  lemma FailedIsBehind(s: Sys, w: map<Ptr, Place>, x: nat, h: nat)
    requires Inv(s, w) && Legal(s, Sched(0)) && |s.procs| == 1 && h < |s.births|
    requires s.heap[s.procs[0].pc.hdl].id == x && Alive(s, h) && x != h
    ensures First(s, x, h) && Apply(s, Sched(0)).births == s.births && !First(Apply(s, Sched(0)), x, h)
  {
    hide Booting, Accounted;
    assert Registered(s) && Control(s.procs[0], s.heap);
    QueuePlaced(s, w);
    HdlHome(s, w, 0);
    assert ProcPlaced(s.procs[0], 0, w);
  }

  lemma StopsRunning(s: Sys, e: Event, p: Ptr)
    requires Legal(s, e) && |s.procs| == 1 && Control(s.procs[0], s.heap) && Runs(s, p) && !Runs(Apply(s, e), p)
    requires Runnable(Apply(s, e), p) && p !in Apply(s, e).queue && !Ends(e)
    ensures YieldOf(e) == Some(Ok(Suspended))
  {
  }

  /** A move that is neither a failure of x nor a yield of h. */
  lemma PlainBound(s: Sys, w: map<Ptr, Place>, e: Event, x: nat, h: nat, f: nat, n: nat)
    requires Inv(s, w) && Legal(s, e) && x != h && Holding(s, h) && Holding(Apply(s, e), h) && Bound(s, x, h, f, n)
    requires Runs(s, s.births[h]) ==> Runs(Apply(s, e), s.births[h])
    ensures h < |Apply(s, e).births| && Bound(Apply(s, e), x, h, f, n)
  {
    var s' := Apply(s, e);
    assert Registered(s);
    BirthEffect(s, e, h);
    if First(s', x, h) {
      BirthEffect(s, e, x);
      if Alive(s, x) {
        FirstStep(s, e, x, h);
      }
    }
  }

  /** A yield of h pays for one failure of x. */
  lemma YieldBound(s: Sys, e: Event, x: nat, h: nat, f: nat, n: nat)
    requires Registered(s) && Legal(s, e) && Holding(s, h) && Holding(Apply(s, e), h) && Bound(s, x, h, f, n)
    ensures h < |Apply(s, e).births| && Bound(Apply(s, e), x, h, f, n + 1)
  {
    BirthEffect(s, e, h);
  }

  lemma MoveBound(w: World, pl: map<Ptr, Place>, m: Move, x: nat, h: nat, f: nat, n: nat)
    requires Inv(w.sys, pl) && Shaped(w) && CanMove(w, m) && x != h
    requires HoldsOn(w, h) && HoldsOn(Perform(w, m), h) && Bound(w.sys, x, h, f, n)
    ensures h < |Perform(w, m).sys.births|
    ensures Bound(Perform(w, m).sys, x, h, f + if Fails(w, m, x) then 1 else 0, n + if Yields(w, m, h) then 1 else 0)
  {
    var s, e := w.sys, EventOf(w, m);
    assert Registered(s) && Control(s.procs[0], s.heap);
    if Fails(w, m, x) {
      FailsIff(w, m, x);
      FailedIsBehind(s, pl, x, h);
    } else if Yields(w, m, h) {
      YieldBound(s, e.value, x, h, f, n);
    } else if e.Some? {
      if Runs(s, s.births[h]) && !Runs(Apply(s, e.value), s.births[h]) {
        HolderOnlyYields(w, pl, m, h);
      }
      PlainBound(s, pl, e.value, x, h, f, n);
    }
  }

  lemma HolderOnlyYields(w: World, pl: map<Ptr, Place>, m: Move, h: nat)
    requires Inv(w.sys, pl) && Shaped(w) && CanMove(w, m) && HoldsOn(w, h) && HoldsOn(Perform(w, m), h)
    requires EventOf(w, m).Some? && Runs(w.sys, w.sys.births[h]) &&
      !Runs(Apply(w.sys, EventOf(w, m).value), w.sys.births[h])
    ensures Yields(w, m, h)
  {
    var s, e, p := w.sys, EventOf(w, m).value, w.sys.births[h];
    assert Registered(s) && Control(s.procs[0], s.heap);
    KernelLeavesCode(s, e);
    RunnerNotOver(w, 0);
    BehaveEvents(w.ctxs[h], s.procs[0], w.locked, w.data, m);
    BehaveInOrder(w.ctxs[h], s.procs[0], w.locked, w.data, m);
    QueuePlaced(s, pl);
    HdlHome(s, pl, 0);
    QueueEffect(s, e);
    BirthEffect(s, e, h);
    StopsRunning(s, e, p);
  }

  lemma KernelLeavesCode(s: Sys, e: Event)
    requires Enabled(s, e)
    ensures IsKernel(e) || e.TopCreate? ==>
      !s.procs[e.i].pc.Executing? && !s.procs[e.i].pc.Counted? && !s.procs[e.i].pc.InWait?
  {
  }

  lemma {:induction false} BoundRun(w: World, ms: seq<Move>, x: nat, h: nat)
    requires Good(w) && Play(w, ms).Some? && x != h && HoldsThroughout(w, ms, h)
    requires |w.sys.procs| == 1 && h < |w.sys.births| && Runs(w.sys, w.sys.births[h])
    ensures Good(Play(w, ms).value) && h < |Play(w, ms).value.sys.births|
    ensures Bound(Play(w, ms).value.sys, x, h, FailCount(w, ms, x), YieldCount(w, ms, h))
  {
    if ms != [] {
      var init, m := ms[..|ms| - 1], ms[|ms| - 1];
      BoundRun(w, init, x, h);
      var v := Play(w, init).value;
      var pl :| Inv(v.sys, pl);
      MoveBound(v, pl, m, x, h, FailCount(w, init, x), YieldCount(w, init, h));
      GoodStep(v, m);
    }
  }

  /** The retry bound: on one processor, while a coroutine holds the lock without blocking,
      no other coroutine fails to take it more often than the holder yields. */
  lemma FailuresBounded(w: World, ms: seq<Move>, x: nat, h: nat)
    requires Good(w) && Play(w, ms).Some? && x != h && HoldsThroughout(w, ms, h)
    requires |w.sys.procs| == 1 && h < |w.sys.births| && Runs(w.sys, w.sys.births[h])
    ensures FailCount(w, ms, x) <= YieldCount(w, ms, h)
  {
    BoundRun(w, ms, x, h);
  }

  lemma TriesStep(c: Ctx, p: Proc, locked: bool, data: int, m: Move)
    requires m.User? && c.k <= |c.script|
    ensures Behave(c, p, locked, data, m).ctx.tries <= c.tries + 1
  {
  }

  lemma {:induction false} TriesCounted(w: World, ms: seq<Move>, x: nat)
    requires Play(w, ms).Some? && (x < |w.ctxs| ==> w.ctxs[x].tries == 0)
    ensures x < |Play(w, ms).value.ctxs| ==> Play(w, ms).value.ctxs[x].tries <= FailCount(w, ms, x)
  {
    if ms != [] {
      var init, m := ms[..|ms| - 1], ms[|ms| - 1];
      TriesCounted(w, init, x);
      var v := Play(w, init).value;
      FailsIff(v, m, x);
      if m.User? {
        TriesStep(v.ctxs[RunId(v, m.i)], v.sys.procs[m.i], v.locked, v.data, m);
      }
    }
  }

  /** So a hold with fewer than POISON_RETRY_COUNT yields cannot exhaust a lock call that
      begins in it. */
  lemma HoldCannotExhaust(w: World, ms: seq<Move>, x: nat, h: nat)
    requires Good(w) && Play(w, ms).Some? && x != h && HoldsThroughout(w, ms, h)
    requires |w.sys.procs| == 1 && h < |w.sys.births| && Runs(w.sys, w.sys.births[h])
    requires x < |w.ctxs| ==> w.ctxs[x].tries == 0
    requires YieldCount(w, ms, h) < POISON_RETRY_COUNT && x < |Play(w, ms).value.ctxs|
    ensures Play(w, ms).value.ctxs[x].tries < POISON_RETRY_COUNT
  {
    FailuresBounded(w, ms, x, h);
    TriesCounted(w, ms, x);
  }
}
