/** The scheduler on one thread, in the shape of the source: objects whose fields the
    methods take and set, and the loops of ready, drop, resume and schedule. Each method
    logs the moves it makes, so a run of these methods is a run of `Programs`, and through
    it a run of the protocol. */
module Runtime {
  import opened Basics
  import opened Protocol
  import opened Ownership
  import opened Invariant
  import opened Fairness
  import opened Programs
  import opened Traces
  import opened MutexLaws
  import opened Work
  import opened Moves
  import opened Wakeups
  import opened Endings
  import opened Population
  import opened Environment
  import opened Waiting

  /** The global scheduler: bounded ready queue and work counter. */
  class Scheduler {
    var queue: seq<Ptr>
    var workCounts: nat

    constructor ()
      ensures queue == [] && workCounts == 0
    {
      queue, workCounts := [], 0;
    }

    /** BoundedQueue::push, which hands a rejected handle back. */
    method Push(coro: Ptr) returns (rejected: Option<Ptr>)
      modifies this`queue
      ensures if |old(queue)| < GLOBAL_QUEUE_SIZE then rejected.None? && queue == old(queue) + [coro]
              else rejected == Some(coro) && queue == old(queue)
    {
      if |queue| < GLOBAL_QUEUE_SIZE {
        queue := queue + [coro];
        rejected := None;
      } else {
        rejected := Some(coro);
      }
    }

    /** BoundedQueue::pop. */
    method Pop() returns (hdl: Option<Ptr>)
      modifies this`queue
      ensures if old(queue) == [] then hdl.None? && queue == []
              else hdl == Some(old(queue)[0]) && queue == old(queue)[1..]
    {
      if queue == [] {
        hdl := None;
      } else {
        hdl := Some(queue[0]);
        queue := queue[1..];
      }
    }

    /** The spin loop of ready, watched for a number of rounds: it pushes at the first
        attempt or, as long as nobody pops, never; the handle is not lost either way. */
    method Ready(coro: Ptr, rounds: nat) returns (pushed: bool)
      modifies this`queue
      ensures pushed <==> rounds > 0 && |old(queue)| < GLOBAL_QUEUE_SIZE
      ensures queue == if pushed then old(queue) + [coro] else old(queue)
    {
      var hdl, i := coro, 0;
      pushed := false;
      while i < rounds && !pushed
        invariant i <= rounds && hdl == coro
        invariant pushed ==> i > 0 && |old(queue)| < GLOBAL_QUEUE_SIZE && queue == old(queue) + [coro]
        invariant !pushed ==> queue == old(queue) && (i > 0 ==> |queue| >= GLOBAL_QUEUE_SIZE)
      {
        var rejected := Push(hdl);
        match rejected {
          case None => pushed := true;
          case Some(h) => hdl := h;
        }
        i := i + 1;
      }
    }
  }

  /** The lock flag and the data it protects. */
  class Mutex {
    var lock: bool
    var data: int

    constructor (data: int)
      ensures !lock && this.data == data
    {
      lock, this.data := false, data;
    }

    method CompareAndSwap(current: bool, next: bool) returns (was: bool)
      modifies this`lock
      ensures was == old(lock) && lock == if was == current then next else was
    {
      was := lock;
      if was == current {
        lock := next;
      }
    }
  }

  /** How a call of schedule ends: by its break, by an I/O error of run_once, or not at all,
      because ready spins on a full queue that nobody empties. */
  datatype Outcome = Finished | IoError | Spins

  /** Every successful run_once reports some token that is waited for. */
  ghost predicate Lively(source: EventSource) {
    forall k, slab: map<Token, Ptr> :: slab != map[] && source(k, slab).Some? ==>
      exists j :: 0 <= j < |source(k, slab).value| && source(k, slab).value[j] in slab
  }

  /** ... and run_once can return an error when somebody is parked. */
  ghost predicate Fails(source: EventSource) {
    exists k: nat, slab: map<Token, Ptr> :: slab != map[] && source(k, slab).None?
  }

  /** The allocator, as far as it matters: some number that is not in use. */
  method FindFree(used: set<nat>) returns (x: nat)
    ensures x !in used
  {
    ghost var b := Unused(used);
    x := 0;
    while x in used
      decreases b - x
    {
      x := x + 1;
    }
  }

  class Processor {
    const scheduler: Scheduler
    const mutex: Mutex
    const rounds: nat
    const source: EventSource
    const start: int

    var curRunning: Option<Ptr>
    var lastResult: Option<YieldResult>
    var newSpawned: Option<Ptr>
    var slab: map<Token, Ptr>
    var pool: set<Stack>
    var polls: nat
    var active: Option<Ptr>             // the coroutine whose code runs; None on main_coro
    var heap: map<Ptr, Coroutine>       // the boxed coroutines
    var ctxs: seq<Ctx>                  // their saved contexts, by birth number
    var stacks: set<Stack>

    ghost var pc: Pc
    ghost var births: seq<Ptr>
    ghost var freed: seq<nat>
    ghost var trace: seq<Entry>
    ghost var moves: seq<Move>

    ghost function Abs(): World
      reads this, scheduler, mutex
    {
      World(Sys([Proc(pc, curRunning, lastResult, newSpawned, slab, pool)],
                scheduler.queue, scheduler.workCounts, heap, births, freed, stacks),
            ctxs, mutex.lock, mutex.data, trace)
    }

    /** The log is a run from the start to w, in which the event source has been asked as
        often as polls says and each poll has brought its next answer. */
    ghost predicate Logged(w: World)
      reads this`moves, this`polls
    {
      && Play(Boot(1, start), moves) == Some(w)
      && polls == |Asked(Boot(1, start), moves)| && Fitting(Boot(1, start), source, moves)
    }

    /** The fields are those of a run from the start, recorded in `moves`. */
    ghost predicate Valid()
      reads this, scheduler, mutex
    {
      && Logged(Abs())
      && AllCount(ctxs)
      && active == (if pc.Executing? || pc.Counted? || pc.InWait? then Some(pc.hdl) else None)
      && rounds > 0
    }

    constructor (scheduler: Scheduler, mutex: Mutex, rounds: nat, source: EventSource)
      requires rounds > 0 && scheduler.queue == [] && scheduler.workCounts == 0 && !mutex.lock
      ensures this.scheduler == scheduler && this.mutex == mutex && this.source == source && start == mutex.data
      ensures Valid() && pc == Outside && moves == []
    {
      this.scheduler, this.mutex, this.rounds, this.source, start := scheduler, mutex, rounds, source, mutex.data;
      curRunning, lastResult, newSpawned, slab, pool, polls, active := None, None, None, map[], {}, 0, None;
      heap, ctxs, stacks := map[], [], {};
      pc, births, freed, trace, moves := Outside, [], [], [], [];
      new;
      assert Abs().sys.procs == Init(1).procs;
    }

    // ---- taking and setting the registers -------------------------------------------

    /** yield_with: without a running coroutine it does nothing. */
    method YieldWith(r: YieldResult)
      modifies this`curRunning, this`lastResult, this`active
      ensures if old(curRunning).None?
              then curRunning == old(curRunning) && lastResult == old(lastResult) && active == old(active)
              else curRunning.None? && lastResult == Some(r) && active.None?
    {
      match curRunning {
        case None =>
        case Some(_) =>
          curRunning := None;
          lastResult := Some(r);
          active := None;
      }
    }

    method Sched()
      modifies this`curRunning, this`lastResult, this`active
      ensures if old(curRunning).None?
              then curRunning == old(curRunning) && lastResult == old(lastResult) && active == old(active)
              else curRunning.None? && lastResult == Some(Ok(Suspended)) && active.None?
    {
      YieldWith(Ok(Suspended));
    }

    method BlockCurrent()
      modifies this`curRunning, this`lastResult, this`active
      ensures if old(curRunning).None?
              then curRunning == old(curRunning) && lastResult == old(lastResult) && active == old(active)
              else curRunning.None? && lastResult == Some(Ok(Blocked)) && active.None?
    {
      YieldWith(Ok(Blocked));
    }

    // ---- the log ----------------------------------------------------------------------

    /** What a valid processor that executes a coroutine knows about it. */
    lemma Facts()
      requires Valid()
      ensures Control(Abs().sys.procs[0], heap) && |births| == |ctxs|
      ensures pc.Executing? || pc.Counted? || pc.InWait? ==> InUser(Abs(), 0) && !ctxs[RunId(Abs(), 0)].ended
    {
      PlayGood(1, start, moves);
      var w := Abs();
      var pl :| Inv(w.sys, pl);
      assert Control(w.sys.procs[0], w.sys.heap) && Registered(w.sys);
      if pc.Executing? || pc.Counted? || pc.InWait? {
        NeverStuck(1, start, moves, w, 0);
        RunnerNotOver(w, 0);
      }
    }

    /** Logs the move that led from w to the present state. */
    ghost method Record(w: World, m: Move)
      requires Logged(w) && CanMove(w, m) && Abs() == Perform(w, m) && !IsPoll(m) && !Bears(w, m)
      requires AllCount(w.ctxs) && rounds > 0
      requires active == (if pc.Executing? || pc.Counted? || pc.InWait? then Some(pc.hdl) else None)
      modifies this`moves
      ensures Valid() && old(moves) <= moves && Abs() == old(Abs())
      ensures WorkLeft(Abs()) + (if Works(w, m) then 1 else 0) <= WorkLeft(w)
    {
      hide Play, Asked, Fitting, Perform, CanMove;
      RecordFitting(w, m, polls);
    }

    /** ... k polls after the start. */
    ghost method RecordFitting(w: World, m: Move, k: nat)
      requires Play(Boot(1, start), moves) == Some(w) && CanMove(w, m) && Abs() == Perform(w, m)
      requires k == |Asked(Boot(1, start), moves)| && polls == (if IsPoll(m) then k + 1 else k)
      requires Fitting(Boot(1, start), source, moves) && Fits(source, k, w, m)
      requires AllCount(w.ctxs) && !m.Launch? && rounds > 0
      requires active == (if pc.Executing? || pc.Counted? || pc.InWait? then Some(pc.hdl) else None)
      modifies this`moves
      ensures Valid() && old(moves) <= moves && Abs() == old(Abs())
      ensures WorkLeft(Abs()) + (if Works(w, m) then 1 else 0) <= WorkLeft(w)
    {
      hide Play, Perform, CanMove, Asked, Fitting, Fits;
      PlayGood(1, start, moves);
      MoveSaves(w, m);
      FittingSnoc(Boot(1, start), source, moves, w, m);
      moves := moves + [m];
    }

    /** The slabs with which run_once has been called so far. */
    ghost function Calls(): (slabs: seq<map<Token, Ptr>>)
      requires Valid()
      reads this, scheduler, mutex
      ensures |slabs| == polls
    {
      Asked(Boot(1, start), moves)
    }

    lemma ErrorsShow()
      requires Valid()
      ensures pc == Exited(false) <==> SomeError(source, Calls())
    {
      hide Play, Fitting, Asked, SomeError;
      ErrorIff(start, source, moves, Abs());
    }

    // ---- one step of the running coroutine -------------------------------------------

    /** No coroutine is inside a drop loop; so it is between any two steps. */
    ghost predicate Calm()
      reads this`ctxs
    {
      forall id :: 0 <= id < |ctxs| ==> !ctxs[id].dropping
    }

    /** Coroutine number id, at address h, executes. */
    ghost predicate Running(h: Ptr, id: nat)
      reads this, scheduler, mutex
    {
      && Valid() && Calm() && pc == Executing(h) && curRunning == Some(h)
      && h in heap && !heap[h].returned && heap[h].id == id && id < |ctxs| && ctxs[id].k <= |ctxs[id].script|
    }

    /** ... and stands at an action. */
    ghost predicate At(h: Ptr, id: nat)
      reads this, scheduler, mutex
    {
      Running(h, id) && !ctxs[id].unwinding && ctxs[id].k < |ctxs[id].script|
    }

    method YieldStep(h: Ptr, id: nat)
      requires At(h, id) && ctxs[id].script[ctxs[id].k].Yield?
      modifies this
      ensures Valid() && Calm() && old(moves) <= moves && WorkLeft(Abs()) < old(WorkLeft(Abs()))
      ensures pc == Returned(h)
    {
      hide Logged, WorkLeft;
      YieldAs(h, id, ctxs[id].(k := ctxs[id].k + 1), true);
    }

    /** The context of coroutine number id becomes c, after an action if it is done. */
    method GoOn(id: nat, c: Ctx, done: bool)
      requires Calm() && id < |ctxs| && !c.dropping && (done ==> ctxs[id].k < |ctxs[id].script|)
      modifies this`ctxs, this`trace
      ensures Calm() && ctxs == old(ctxs)[id := c]
      ensures trace == old(trace) + if done then [Deed(id, old(ctxs)[id], c)] else []
    {
      trace := trace + if done then [Deed(id, ctxs[id], c)] else [];
      ctxs := ctxs[id := c];
    }

    /** A step that ends in sched: the context c is saved and control returns to main_coro. */
    method YieldAs(h: Ptr, id: nat, c: Ctx, done: bool)
      requires At(h, id) && !c.dropping && Counts(c)
      requires Behave(ctxs[id], Abs().sys.procs[0], mutex.lock, mutex.data, STEP)
        == Step(c, done, Some(Protocol.Sched(0)), mutex.lock, mutex.data)
      modifies this
      ensures Valid() && Calm() && old(moves) <= moves && WorkLeft(Abs()) < old(WorkLeft(Abs()))
      ensures pc == Returned(h)
    {
      hide Logged, WorkLeft, Behave;
      ghost var w := Abs();
      GoOn(id, c, done);
      Sched();
      pc := Returned(h);
      assert moves == old(moves);
      assert Abs() == AfterYield(w, w.sys.procs[0], h, id, c, done);
      RecordYield(w, h, id, c, done);
    }

    ghost method RecordYield(w: World, h: Ptr, id: nat, c: Ctx, done: bool)
      requires Logged(w) && AllCount(w.ctxs) && rounds > 0 && |w.sys.procs| == 1
      requires w.sys.procs[0].pc == Executing(h) && w.sys.procs[0].curRunning.Some?
      requires h in w.sys.heap && !w.sys.heap[h].returned && w.sys.heap[h].id == id
      requires id < |w.ctxs| && w.ctxs[id].k < |w.ctxs[id].script|
      requires Behave(w.ctxs[id], w.sys.procs[0], w.locked, w.data, STEP)
        == Step(c, done, Some(Protocol.Sched(0)), w.locked, w.data)
      requires Abs() == AfterYield(w, w.sys.procs[0], h, id, c, done) && active.None?
      modifies this`moves
      ensures Valid() && old(moves) <= moves && Abs() == old(Abs()) && WorkLeft(Abs()) < WorkLeft(w)
    {
      assert w.sys.procs == [w.sys.procs[0]];
      YieldEffect(w, w.sys.procs[0], h, id, c, done);
      Record(w, STEP);
    }

    /** Scheduler::spawn_opts, called by a coroutine. */
    method SpawnStep(h: Ptr, id: nat)
      requires At(h, id) && ctxs[id].script[ctxs[id].k].Spawn?
      modifies this, scheduler`workCounts
      ensures Valid() && Calm() && old(moves) <= moves && WorkLeft(Abs()) < old(WorkLeft(Abs()))
      ensures pc == Returned(h)
    {
      hide Logged, WorkLeft;
      CountChild(h, id);
      var ptr := FindFree(heap.Keys);
      var stack := TakeStack();
      CreateChild(h, id, ptr, stack);
    }

    /** Coroutine number id, at address h, has counted the child that it is about to create. */
    ghost predicate Spawning(h: Ptr, id: nat)
      reads this, scheduler, mutex
    {
      && Valid() && Calm() && pc == Counted(h) && curRunning == Some(h) && |births| == |ctxs|
      && h in heap && !heap[h].returned && heap[h].id == id && id < |ctxs| && AtSpawn(ctxs[id])
    }

    /** Processor::spawn_opts: create the child, hand it over in new_spawned and yield. */
    method CreateChild(h: Ptr, id: nat, ptr: Ptr, stack: Stack)
      requires Spawning(h, id) && ptr !in heap && (if pool != {} then stack in pool else stack !in stacks)
      modifies this
      ensures Valid() && Calm() && old(moves) <= moves && WorkLeft(Abs()) < old(WorkLeft(Abs()))
      ensures pc == Returned(h)
    {
      hide Logged, WorkLeft, CanMove;
      ghost var w := Abs();
      HandOver(h, id, ptr, stack);
      assert Abs() == AfterCreate(w, w.sys.procs[0], h, id, ptr, stack);
      RecordCreate(w, h, id, ptr, stack);
    }

    /** The child goes to new_spawned, and its parent goes on and yields. */
    method HandOver(h: Ptr, id: nat, ptr: Ptr, stack: Stack)
      requires Calm() && id < |ctxs| && AtSpawn(ctxs[id]) && curRunning.Some?
      modifies this`heap, this`pool, this`stacks, this`ctxs, this`births, this`trace, this`newSpawned, this`pc
      modifies this`curRunning, this`lastResult, this`active
      ensures Calm() && var c := old(ctxs)[id];
        ctxs == old(ctxs)[id := c.(k := c.k + 1)] + [NewCtx(c.script[c.k].body)] &&
        trace == old(trace) + [Deed(id, c, c.(k := c.k + 1))]
      ensures heap == old(heap)[ptr := Coroutine(|old(ctxs)|, stack, false)] && births == old(births) + [ptr]
      ensures pool == old(pool) - {stack} && stacks == old(stacks) + {stack} && newSpawned == Some(ptr)
      ensures curRunning.None? && lastResult == Some(Ok(Suspended)) && active.None? && pc == Returned(h)
    {
      var c := ctxs[id];
      GoOn(id, c.(k := c.k + 1), true);
      NewCoroutine(ptr, stack, c.script[c.k].body);
      newSpawned := Some(ptr);
      Sched();
      pc := Returned(h);
    }

    ghost method RecordCreate(w: World, h: Ptr, id: nat, ptr: Ptr, stack: Stack)
      requires Logged(w) && AllCount(w.ctxs) && rounds > 0 && |w.sys.procs| == 1
      requires w.sys.procs[0].pc == Counted(h) && w.sys.procs[0].curRunning.Some?
      requires h in w.sys.heap && !w.sys.heap[h].returned && w.sys.heap[h].id == id && id < |w.ctxs| &&
        AtSpawn(w.ctxs[id])
      requires ptr !in w.sys.heap
      requires if w.sys.procs[0].pool != {} then stack in w.sys.procs[0].pool else stack !in w.sys.stacks
      requires Abs() == AfterCreate(w, w.sys.procs[0], h, id, ptr, stack) && active.None?
      modifies this`moves
      ensures Valid() && old(moves) <= moves && Abs() == old(Abs()) && WorkLeft(Abs()) < WorkLeft(w)
    {
      assert w.sys.procs == [w.sys.procs[0]];
      CreateEffect(w, w.sys.procs[0], h, id, ptr, stack);
      RecordFitting(w, User(0, ptr, stack, 0), polls);
    }

    /** Coroutine::spawn_opts: a box for the script, on a stack of its own. */
    method NewCoroutine(ptr: Ptr, stack: Stack, script: seq<Action>)
      modifies this`heap, this`pool, this`stacks, this`ctxs, this`births
      ensures old(Calm()) ==> Calm()
      ensures heap == old(heap)[ptr := Coroutine(|old(ctxs)|, stack, false)] && ctxs == old(ctxs) + [NewCtx(script)]
      ensures pool == old(pool) - {stack} && stacks == old(stacks) + {stack} && births == old(births) + [ptr]
    {
      heap := heap[ptr := Coroutine(|ctxs|, stack, false)];
      pool, stacks := pool - {stack}, stacks + {stack};
      ctxs, births := ctxs + [NewCtx(script)], births + [ptr];
    }

    /** The fetch_add of a spawn. */
    method CountChild(h: Ptr, id: nat)
      requires At(h, id) && ctxs[id].script[ctxs[id].k].Spawn?
      modifies this`pc, this`moves, scheduler`workCounts
      ensures Spawning(h, id) && old(moves) <= moves && WorkLeft(Abs()) <= old(WorkLeft(Abs()))
    {
      hide Logged, WorkLeft;
      ghost var w := Abs();
      CountEffect(w.sys, w.sys.procs[0]);
      ByEvent(w, STEP, SpawnCount(0), id, Step(ctxs[id], false, Some(SpawnCount(0)), mutex.lock, mutex.data));
      assert ctxs[id := ctxs[id]] == ctxs;
      scheduler.workCounts := scheduler.workCounts + 1;
      pc := Counted(h);
      assert Abs() == Perform(w, STEP);
      Record(w, STEP);
      Facts();
    }

    /** StackPool::take_stack: a pooled stack or a newly mapped one. */
    method TakeStack() returns (stack: Stack)
      ensures if pool != {} then stack in pool else stack !in stacks
    {
      if pool != {} {
        stack :| stack in pool;
      } else {
        stack := FindFree(stacks);
      }
    }

    /** wait_event: insert into the slab, register, block. A full slab makes unwrap() panic. */
    method WaitStep(h: Ptr, id: nat)
      requires At(h, id) && ctxs[id].script[ctxs[id].k].Wait?
      modifies this
      ensures Valid() && Calm() && old(moves) <= moves && WorkLeft(Abs()) < old(WorkLeft(Abs()))
      ensures pc == Returned(h) || Running(h, id)
    {
      hide Logged, WorkLeft;
      if |slab| < MAX_TOKEN_NUM {
        var token := FindFree(slab.Keys);
        ParkCurrent(h, id, token);
        BlockStep(h, id);
      } else {
        Proceed(h, id, ctxs[id].(k := ctxs[id].k + 1, unwinding := true));
      }
    }

    /** Coroutine number id, at address h, is parked in the slab and about to block. */
    ghost predicate Waiting(h: Ptr, id: nat)
      reads this, scheduler, mutex
    {
      && Valid() && Calm() && pc.InWait? && pc.hdl == h && curRunning == Some(h)
      && h in heap && !heap[h].returned && heap[h].id == id && id < |ctxs| && ctxs[id].k <= |ctxs[id].script|
    }

    /** The block() of wait_event. */
    method BlockStep(h: Ptr, id: nat)
      requires Waiting(h, id)
      modifies this`curRunning, this`lastResult, this`active, this`pc, this`moves
      ensures Valid() && Calm() && old(moves) <= moves && WorkLeft(Abs()) <= old(WorkLeft(Abs()))
      ensures pc == Returned(h)
    {
      hide Logged, WorkLeft;
      ghost var w := Abs();
      BlockEffect(w.sys, w.sys.procs[0]);
      ByEvent(w, STEP, Protocol.Block(0), id, Step(ctxs[id], false, Some(Protocol.Block(0)), mutex.lock, mutex.data));
      assert ctxs[id := ctxs[id]] == ctxs;
      BlockCurrent();
      pc := Returned(h);
      assert Abs() == Perform(w, STEP);
      Record(w, STEP);
    }

    /** The insertion of wait_event. */
    method ParkCurrent(h: Ptr, id: nat, token: Token)
      requires At(h, id) && ctxs[id].script[ctxs[id].k].Wait? && |slab| < MAX_TOKEN_NUM && token !in slab
      modifies this`ctxs, this`trace, this`slab, this`pc, this`moves
      ensures Waiting(h, id) && old(moves) <= moves && WorkLeft(Abs()) < old(WorkLeft(Abs()))
    {
      hide Logged, WorkLeft, Behave;
      ghost var w := Abs();
      var c := ctxs[id].(k := ctxs[id].k + 1);
      GoOn(id, c, true);
      slab := slab[token := h];
      pc := InWait(h, token);
      assert moves == old(moves);
      RecordWait(w, h, id, token);
    }

    ghost method RecordWait(w: World, h: Ptr, id: nat, token: Token)
      requires Logged(w) && AllCount(w.ctxs) && rounds > 0 && w.sys.procs == [w.sys.procs[0]]
      requires var p := w.sys.procs[0];
        p.pc == Executing(h) && token !in p.slab && |p.slab| < MAX_TOKEN_NUM && RunsUserCode(w.sys, 0)
      requires w.sys.heap[h].id == id && id < |w.ctxs| && Acting(w.ctxs[id], w.sys.procs[0])
      requires w.ctxs[id].script[w.ctxs[id].k].Wait? && active == Some(h) && pc == InWait(h, token)
      requires var p, c := w.sys.procs[0], w.ctxs[id];
        Abs() == World(w.sys.(procs := [p.(pc := InWait(h, token), slab := p.slab[token := h])]),
                       w.ctxs[id := c.(k := c.k + 1)], w.locked, w.data, w.trace + [Deed(id, c, c.(k := c.k + 1))])
      modifies this`moves
      ensures Valid() && old(moves) <= moves && Abs() == old(Abs()) && WorkLeft(Abs()) < WorkLeft(w)
    {
      hide Logged, WorkLeft, Perform;
      var m, c := User(0, 0, 0, token), w.ctxs[id].(k := w.ctxs[id].k + 1);
      WaitEffect(w.sys, w.sys.procs[0], token);
      ByEvent(w, m, WaitInsert(0, token), id, Step(c, true, Some(WaitInsert(0, token)), w.locked, w.data));
      Record(w, m);
    }

    /** An action that neither yields nor touches the mutex: the coroutine goes on with c. */
    method Proceed(h: Ptr, id: nat, c: Ctx)
      requires At(h, id)
      requires Behave(ctxs[id], Abs().sys.procs[0], mutex.lock, mutex.data, STEP)
        == Step(c, true, None, mutex.lock, mutex.data)
      requires !c.dropping && c.k <= |c.script|
      modifies this`ctxs, this`trace, this`moves
      ensures Valid() && Calm() && old(moves) <= moves && WorkLeft(Abs()) < old(WorkLeft(Abs()))
      ensures Running(h, id) && ctxs == old(ctxs)[id := c]
    {
      hide Logged, WorkLeft;
      ghost var w := Abs();
      Locally(w, id, Step(c, true, None, mutex.lock, mutex.data));
      trace := trace + [Deed(id, ctxs[id], c)];
      ctxs := ctxs[id := c];
      assert Abs() == Perform(w, STEP);
      Record(w, STEP);
    }

    /** *guard read. */
    method LoadStep(h: Ptr, id: nat)
      requires At(h, id) && ctxs[id].script[ctxs[id].k].Load?
      modifies this
      ensures Valid() && Calm() && old(moves) <= moves && WorkLeft(Abs()) < old(WorkLeft(Abs()))
      ensures Running(h, id)
    {
      hide Logged, WorkLeft;
      var c := ctxs[id];
      Proceed(h, id, c.(k := c.k + 1, reg := mutex.data, loaded := c.guards > 0));
    }

    /** *guard written. */
    method StoreStep(h: Ptr, id: nat)
      requires At(h, id) && ctxs[id].script[ctxs[id].k].Store?
      modifies this, mutex`data
      ensures Valid() && Calm() && old(moves) <= moves && WorkLeft(Abs()) < old(WorkLeft(Abs()))
      ensures Running(h, id)
    {
      hide Logged, WorkLeft;
      ghost var w := Abs();
      var c := ctxs[id].(k := ctxs[id].k + 1, loaded := false);
      Locally(w, id, Step(c, true, None, mutex.lock, c.reg + 1));
      trace := trace + [Deed(id, ctxs[id], c)];
      mutex.data := ctxs[id].reg + 1;
      ctxs := ctxs[id := c];
      assert moves == old(moves) && Calm();
      assert Abs() == Perform(w, STEP);
      Record(w, STEP);
    }

    method ThrowStep(h: Ptr, id: nat)
      requires At(h, id) && ctxs[id].script[ctxs[id].k].Throw?
      modifies this
      ensures Valid() && Calm() && old(moves) <= moves && WorkLeft(Abs()) < old(WorkLeft(Abs()))
      ensures Running(h, id)
    {
      hide Logged, WorkLeft;
      Proceed(h, id, ctxs[id].(k := ctxs[id].k + 1, unwinding := true));
    }

    /** One round of the retry loop of lock: the counter of the loop is part of the context
        that sched saves. After the last round the error guard is dropped by unwrap(). */
    method LockStep(h: Ptr, id: nat)
      requires At(h, id) && ctxs[id].script[ctxs[id].k].Lock?
      modifies this, mutex`lock
      ensures Valid() && Calm() && old(moves) <= moves && WorkLeft(Abs()) < old(WorkLeft(Abs()))
      ensures pc == Returned(h) || Running(h, id)
    {
      hide Logged, WorkLeft;
      var c := ctxs[id];
      if c.tries == POISON_RETRY_COUNT {
        PoisonStep(h, id);
      } else {
        var acquired := Attempt(h, id);
        if !acquired {
          FailStep(h, id);
        }
      }
    }

    /** compare_and_swap(false, true): if it succeeds, the guard is made. */
    method Attempt(h: Ptr, id: nat) returns (acquired: bool)
      requires At(h, id) && (ctxs[id].script[ctxs[id].k].TryLock? ||
        (ctxs[id].script[ctxs[id].k].Lock? && ctxs[id].tries < POISON_RETRY_COUNT))
      modifies this`ctxs, this`trace, this`moves, mutex`lock
      ensures acquired <==> !old(mutex.lock)
      ensures acquired ==> Running(h, id) && old(moves) <= moves && WorkLeft(Abs()) < old(WorkLeft(Abs()))
      ensures !acquired ==> mutex.lock && ctxs == old(ctxs) && trace == old(trace) && moves == old(moves)
    {
      hide Logged, WorkLeft;
      ghost var w := Abs();
      var was := mutex.CompareAndSwap(false, true);
      acquired := !was;
      if acquired {
        Acquired(h, id, w);
      }
    }

    /** Guard::new after the flag has been set; w is the state before. */
    method Acquired(h: Ptr, id: nat, ghost w: World)
      requires Logged(w) && !w.locked && mutex.lock && Abs() == w.(locked := true)
      requires AllCount(ctxs) && rounds > 0 && Calm() && pc == Executing(h) && curRunning == Some(h) &&
        active == Some(h)
      requires h in heap && !heap[h].returned && heap[h].id == id && id < |ctxs| && !ctxs[id].unwinding
      requires ctxs[id].k < |ctxs[id].script| && (ctxs[id].script[ctxs[id].k].TryLock? ||
        (ctxs[id].script[ctxs[id].k].Lock? && ctxs[id].tries < POISON_RETRY_COUNT))
      modifies this`ctxs, this`trace, this`moves
      ensures Running(h, id) && old(moves) <= moves && WorkLeft(Abs()) < WorkLeft(w)
    {
      hide Logged, WorkLeft;
      var c := ctxs[id].(k := ctxs[id].k + 1, tries := 0, guards := ctxs[id].guards + 1, loaded := false);
      Locally(w, id, Step(c, true, None, true, mutex.data));
      trace := trace + [Deed(id, ctxs[id], c)];
      ctxs := ctxs[id := c];
      assert moves == old(moves) && Calm();
      assert Abs() == Perform(w, STEP);
      Record(w, STEP);
    }

    /** An attempt of lock has failed: the coroutine yields and will try again. */
    method FailStep(h: Ptr, id: nat)
      requires At(h, id) && mutex.lock && ctxs[id].script[ctxs[id].k].Lock? && ctxs[id].tries < POISON_RETRY_COUNT
      modifies this
      ensures Valid() && Calm() && old(moves) <= moves && WorkLeft(Abs()) < old(WorkLeft(Abs()))
      ensures pc == Returned(h)
    {
      hide Logged, WorkLeft;
      YieldAs(h, id, ctxs[id].(tries := ctxs[id].tries + 1), false);
    }

    method TryLockStep(h: Ptr, id: nat)
      requires At(h, id) && ctxs[id].script[ctxs[id].k].TryLock?
      modifies this, mutex`lock
      ensures Running(h, id) && old(moves) <= moves && WorkLeft(Abs()) < old(WorkLeft(Abs()))
    {
      hide Logged, WorkLeft;
      var acquired := Attempt(h, id);
      if !acquired {
        PoisonStep(h, id);
      }
    }

    /** unwrap() of a PoisonError: a panic, which drops the guard inside the error. */
    method PoisonStep(h: Ptr, id: nat)
      requires At(h, id) && (if ctxs[id].script[ctxs[id].k].TryLock? then mutex.lock
        else ctxs[id].script[ctxs[id].k].Lock? && ctxs[id].tries == POISON_RETRY_COUNT)
      modifies this, mutex`lock
      ensures Valid() && Calm() && old(moves) <= moves && WorkLeft(Abs()) < old(WorkLeft(Abs()))
      ensures Running(h, id)
    {
      hide Logged, WorkLeft;
      ghost var w := Abs();
      var c := ctxs[id].(k := ctxs[id].k + 1, tries := 0, poisoned := true, unwinding := true, dropping := true);
      Locally(w, id, Step(c, true, None, mutex.lock, mutex.data));
      trace := trace + [Deed(id, ctxs[id], c)];
      ctxs := ctxs[id := c];
      assert Abs() == Perform(w, STEP);
      Record(w, STEP);
      DropLoop(h, id);
    }

    /** A coroutine inside the loop of Guard::drop, the only one that is. */
    ghost predicate Dropping(h: Ptr, id: nat)
      reads this, scheduler, mutex
    {
      && Valid() && pc == Executing(h) && curRunning == Some(h)
      && h in heap && !heap[h].returned && heap[h].id == id && id < |ctxs| && ctxs[id].k <= |ctxs[id].script|
      && ctxs[id].dropping && forall j :: 0 <= j < |ctxs| && j != id ==> !ctxs[j].dropping
    }

    /** The rest of `while compare_and_swap(true, false) == true {}`. */
    method DropLoop(h: Ptr, id: nat)
      requires Dropping(h, id)
      modifies this`ctxs, this`moves, mutex`lock
      ensures Running(h, id) && old(moves) <= moves && WorkLeft(Abs()) < old(WorkLeft(Abs()))
    {
      hide Logged, WorkLeft;
      var again := true;
      while again
        invariant if again then Dropping(h, id) else Running(h, id)
        invariant Valid() && old(moves) <= moves
        invariant WorkLeft(Abs()) <= old(WorkLeft(Abs())) && (!again ==> WorkLeft(Abs()) < old(WorkLeft(Abs())))
        decreases mutex.lock, again
      {
        ghost var w := Abs();
        Locally(w, id, Step(ctxs[id].(dropping := mutex.lock), false, None, false, mutex.data));
        again := mutex.CompareAndSwap(true, false);
        ctxs := ctxs[id := ctxs[id].(dropping := again)];
        assert Abs() == Perform(w, STEP);
        Record(w, STEP);
      }
    }

    /** Guard::drop of an acquired guard at an Unlock action. */
    method DropNow(h: Ptr, id: nat)
      requires At(h, id) && ctxs[id].guards > 0 && ctxs[id].script[ctxs[id].k].Unlock?
      modifies this`ctxs, this`trace, this`moves, mutex`lock
      ensures Running(h, id) && old(moves) <= moves && WorkLeft(Abs()) < old(WorkLeft(Abs()))
    {
      hide Logged, WorkLeft;
      ghost var w := Abs();
      var c := ctxs[id].(k := ctxs[id].k + 1, guards := ctxs[id].guards - 1, loaded := false);
      Locally(w, id, Step(c.(dropping := mutex.lock), true, None, false, mutex.data));
      var was := mutex.CompareAndSwap(true, false);
      trace := trace + [Deed(id, ctxs[id], c)];
      ctxs := ctxs[id := c.(dropping := was)];
      assert Abs() == Perform(w, STEP);
      Record(w, STEP);
      if was {
        DropLoop(h, id);
      }
    }

    /** Guard::drop of an acquired guard that goes out of scope at the end of the function
        or during a panic. */
    method DropAtEnd(h: Ptr, id: nat)
      requires Running(h, id) && ctxs[id].guards > 0 && (ctxs[id].unwinding || ctxs[id].k == |ctxs[id].script|)
      modifies this`ctxs, this`moves, mutex`lock
      ensures Running(h, id) && old(moves) <= moves && WorkLeft(Abs()) < old(WorkLeft(Abs()))
    {
      hide Logged, WorkLeft;
      ghost var w := Abs();
      var c := ctxs[id].(guards := ctxs[id].guards - 1, loaded := false);
      Locally(w, id, Step(c.(dropping := mutex.lock), false, None, false, mutex.data));
      var was := mutex.CompareAndSwap(true, false);
      ctxs := ctxs[id := c.(dropping := was)];
      assert Abs() == Perform(w, STEP);
      Record(w, STEP);
      if was {
        DropLoop(h, id);
      }
    }

    method UnlockStep(h: Ptr, id: nat)
      requires At(h, id) && ctxs[id].script[ctxs[id].k].Unlock?
      modifies this, mutex`lock
      ensures Valid() && Calm() && old(moves) <= moves && WorkLeft(Abs()) < old(WorkLeft(Abs()))
      ensures Running(h, id)
    {
      hide Logged, WorkLeft;
      if ctxs[id].guards > 0 {
        DropNow(h, id);
      } else {
        Proceed(h, id, ctxs[id].(k := ctxs[id].k + 1));
      }
    }

    /** coroutine_initialize after the function: it yields its end. */
    method YieldEnd(h: Ptr, id: nat)
      requires Running(h, id) && AtEnd(ctxs[id])
      modifies this
      ensures Valid() && Calm() && old(moves) <= moves && WorkLeft(Abs()) < old(WorkLeft(Abs()))
      ensures pc == Returned(h)
    {
      hide Logged, WorkLeft;
      ghost var w := Abs();
      var panicked := ctxs[id].unwinding;
      ctxs := ctxs[id := ctxs[id].(ended := true)];
      heap := heap[h := heap[h].(returned := true)];
      YieldWith(if panicked then Panicking else Ok(CoState.Finished));
      pc := Returned(h);
      assert moves == old(moves) && Calm();
      assert Abs() == AfterEnd(w, w.sys.procs[0], h, id);
      RecordEnd(w, h, id);
    }

    ghost method RecordEnd(w: World, h: Ptr, id: nat)
      requires Logged(w) && AllCount(w.ctxs) && rounds > 0 && |w.sys.procs| == 1
      requires w.sys.procs[0].pc == Executing(h) && w.sys.procs[0].curRunning.Some?
      requires h in w.sys.heap && !w.sys.heap[h].returned && w.sys.heap[h].id == id && id < |w.ctxs| &&
        AtEnd(w.ctxs[id])
      requires Abs() == AfterEnd(w, w.sys.procs[0], h, id) && active.None?
      modifies this`moves
      ensures Valid() && old(moves) <= moves && Abs() == old(Abs()) && WorkLeft(Abs()) < WorkLeft(w)
    {
      assert w.sys.procs == [w.sys.procs[0]];
      EndEffect(w, w.sys.procs[0], h, id);
      Record(w, User(0, 0, 0, 0));
    }

    /** The function is over: live guards are dropped first. */
    method EndStep(h: Ptr, id: nat)
      requires Running(h, id) && (ctxs[id].unwinding || ctxs[id].k == |ctxs[id].script|)
      modifies this, mutex`lock
      ensures Valid() && Calm() && old(moves) <= moves && WorkLeft(Abs()) < old(WorkLeft(Abs()))
      ensures pc == Returned(h) || Running(h, id)
    {
      hide Logged, WorkLeft;
      if ctxs[id].guards > 0 {
        DropAtEnd(h, id);
      } else {
        YieldEnd(h, id);
      }
    }

    method StepCoroutine(h: Ptr, id: nat)
      requires Running(h, id)
      modifies this, scheduler`workCounts, mutex
      ensures Valid() && Calm() && old(moves) <= moves && WorkLeft(Abs()) < old(WorkLeft(Abs()))
      ensures pc == Returned(h) || Running(h, id)
    {
      hide Logged, WorkLeft;
      if ctxs[id].unwinding || ctxs[id].k == |ctxs[id].script| {
        EndStep(h, id);
      } else {
        match ctxs[id].script[ctxs[id].k] {
          case Yield => YieldStep(h, id);
          case Spawn(_) => SpawnStep(h, id);
          case Wait => WaitStep(h, id);
          case Lock => LockStep(h, id);
          case TryLock => TryLockStep(h, id);
          case Unlock => UnlockStep(h, id);
          case Load => LoadStep(h, id);
          case Store => StoreStep(h, id);
          case Throw => ThrowStep(h, id);
        }
      }
    }

    // ---- resume and run_task ----------------------------------------------------------

    ghost function AbsWith(cur: Option<Ptr>, last: Option<YieldResult>, pc: Pc): World
      reads this, scheduler, mutex
    {
      var w := Abs();
      w.(sys := w.sys.(procs := [Proc(pc, cur, last, newSpawned, slab, pool)]))
    }

    /** The handle h has just been taken from the queue or the slot by event e; w0 is the
        state before. */
    ghost predicate Handed(h: Ptr, w0: World, e: Event)
      reads this, scheduler, mutex
    {
      && Logged(w0) && CanMove(w0, Kernel(e)) && Advances(w0.sys, e)
      && |w0.sys.procs| == 1 && AllCount(w0.ctxs) && Calm() && rounds > 0
      && AbsWith(Some(h), lastResult, Executing(h)) == Perform(w0, Kernel(e))
    }

    /** The first half of resume: cur_running is set and control passes to the coroutine. */
    method SwitchTo(h: Ptr, ghost w0: World, ghost e: Event)
      requires Handed(h, w0, e)
      modifies this`curRunning, this`active, this`pc, this`moves
      ensures Valid() && Calm() && old(moves) <= moves && WorkLeft(Abs()) < WorkLeft(w0)
      ensures h in heap && Running(h, heap[h].id)
    {
      hide Logged, WorkLeft;
      curRunning := Some(h);
      active := Some(h);
      pc := Executing(h);
      Record(w0, Kernel(e));
      Facts();
    }

    /** The coroutine runs until it switches back to main_coro. */
    method RunCoroutine(h: Ptr, id: nat)
      requires Running(h, id)
      modifies this, scheduler`workCounts, mutex
      ensures Valid() && Calm() && old(moves) <= moves && WorkLeft(Abs()) <= old(WorkLeft(Abs()))
      ensures pc == Returned(h)
    {
      hide Logged, WorkLeft;
      while active.Some?
        invariant Valid() && Calm() && old(moves) <= moves && WorkLeft(Abs()) <= old(WorkLeft(Abs()))
        invariant if active.Some? then Running(h, id) else pc == Returned(h)
        decreases WorkLeft(Abs())
      {
        StepCoroutine(h, id);
      }
    }

    /** The second half of resume: last_result is taken. */
    method TakeResult(h: Ptr) returns (r: YieldResult, ghost w1: World)
      requires Valid() && pc == Returned(h)
      modifies this`lastResult
      ensures w1 == old(Abs()) && w1 == AbsWith(curRunning, Some(r), Returned(h)) && lastResult.None?
    {
      Facts();
      w1 := Abs();
      r := match lastResult case None => Ok(Suspended) case Some(r) => r;
      lastResult := None;
    }

    /** resume: switch to the coroutine, and when it has switched back take its result. */
    method Resume(h: Ptr, ghost w0: World, ghost e: Event) returns (r: YieldResult, ghost w1: World)
      requires Handed(h, w0, e)
      modifies this, scheduler`workCounts, mutex
      ensures Logged(w1) && AllCount(ctxs) && Calm() && active.None?
      ensures w1 == AbsWith(curRunning, Some(r), Returned(h)) && pc == Returned(h) && lastResult.None?
      ensures old(moves) <= moves && WorkLeft(w1) < WorkLeft(w0)
    {
      hide Logged, WorkLeft;
      SwitchTo(h, w0, e);
      RunCoroutine(h, heap[h].id);
      r, w1 := TakeResult(h);
    }

    /** Scheduler::finished subtracts ... */
    method Subtract(h: Ptr, r: YieldResult, ghost w1: World)
      requires Logged(w1) && AllCount(ctxs) && active.None? && rounds > 0
      requires lastResult.None? && pc == Returned(h)
      requires r != Ok(Suspended) && r != Ok(Blocked) && w1 == AbsWith(curRunning, Some(r), Returned(h))
      modifies this`pc, this`moves, scheduler`workCounts
      ensures Valid() && old(moves) <= moves && WorkLeft(Abs()) <= WorkLeft(w1) && pc == Freeing(h)
    {
      hide Logged, WorkLeft;
      FinishEffect(w1.sys, w1.sys.procs[0]);
      scheduler.workCounts := FetchSub(scheduler.workCounts);
      pc := Freeing(h);
      assert Abs() == Perform(w1, Kernel(Handle(0)));
      Record(w1, Kernel(Handle(0)));
    }

    lemma FreeingIsThere(h: Ptr)
      requires Valid() && pc == Freeing(h)
      ensures h in heap
    {
      Facts();
    }

    /** ... and then drops the box, whose stack goes to the pool of this thread. */
    method DropBox(h: Ptr)
      requires Valid() && pc == Freeing(h)
      modifies this`heap, this`pool, this`freed, this`pc, this`moves
      ensures Valid() && old(moves) <= moves && WorkLeft(Abs()) <= old(WorkLeft(Abs())) && pc == Draining
      ensures heap == old(heap) - {h}
    {
      hide Logged, WorkLeft;
      FreeingIsThere(h);
      ghost var w := Abs();
      GiveBack(h);
      RecordFree(w, h);
    }

    /** Coroutine::drop. */
    method GiveBack(h: Ptr)
      requires h in heap
      modifies this`heap, this`pool, this`freed, this`pc
      ensures heap == old(heap) - {h} && pool == old(pool) + {old(heap)[h].stack}
      ensures freed == old(freed) + [old(heap)[h].id] && pc == Draining
    {
      freed := freed + [heap[h].id];
      pool := pool + {heap[h].stack};
      heap := heap - {h};
      pc := Draining;
    }

    ghost method RecordFree(w: World, h: Ptr)
      requires Logged(w) && AllCount(w.ctxs) && rounds > 0 && active.None?
      requires |w.sys.procs| == 1 && w.sys.procs[0].pc == Freeing(h) && h in w.sys.heap
      requires var p, c := w.sys.procs[0], w.sys.heap[h];
        Abs() == w.(sys := w.sys.(procs := [p.(pc := Draining, pool := p.pool + {c.stack})],
                                  heap := w.sys.heap - {h}, freed := w.sys.freed + [c.id]))
      modifies this`moves
      ensures Valid() && old(moves) <= moves && Abs() == old(Abs()) && WorkLeft(Abs()) <= WorkLeft(w)
    {
      hide Logged, WorkLeft;
      assert w.sys.procs == [w.sys.procs[0]];
      FreeEffect(w.sys, w.sys.procs[0]);
      Record(w, Kernel(Free(0)));
    }

    method Suspend(h: Ptr, ghost w1: World)
      requires Logged(w1) && AllCount(ctxs) && active.None? && rounds > 0
      requires lastResult.None? && pc == Returned(h) && w1 == AbsWith(curRunning, Some(Ok(Suspended)), Returned(h))
      modifies this`pc, this`moves
      ensures Valid() && old(moves) <= moves && WorkLeft(Abs()) <= WorkLeft(w1) && pc == Pushing(h, None)
    {
      hide Logged, WorkLeft;
      SuspendEffect(w1.sys, w1.sys.procs[0]);
      pc := Pushing(h, None);
      assert Abs() == Perform(w1, Kernel(Handle(0)));
      Record(w1, Kernel(Handle(0)));
    }

    method LeaveBlocked(h: Ptr, ghost w1: World)
      requires Logged(w1) && AllCount(ctxs) && active.None? && rounds > 0
      requires lastResult.None? && pc == Returned(h) && w1 == AbsWith(curRunning, Some(Ok(Blocked)), Returned(h))
      modifies this`pc, this`moves
      ensures Valid() && old(moves) <= moves && WorkLeft(Abs()) <= WorkLeft(w1) && pc == Draining
    {
      hide Logged, WorkLeft;
      BlockedEffect(w1.sys, w1.sys.procs[0]);
      pc := Draining;
      assert Abs() == Perform(w1, Kernel(Handle(0)));
      Record(w1, Kernel(Handle(0)));
    }

    method RunTask(h: Ptr, ghost w0: World, ghost e: Event) returns (spins: bool, ghost r: YieldResult)
      requires Handed(h, w0, e)
      modifies this, scheduler, mutex
      ensures Valid() && Calm() && old(moves) <= moves && WorkLeft(Abs()) < WorkLeft(w0)
      ensures if spins then pc.Pushing? && |scheduler.queue| >= GLOBAL_QUEUE_SIZE else pc == Draining
      ensures spins ==> r == Ok(Suspended)
      ensures scheduler.queue == old(scheduler.queue) + if r == Ok(Suspended) && !spins then [h] else []
      ensures r == Ok(Blocked) ==> exists t :: t in slab && slab[t] == h
      ensures h in heap <==> r == Ok(Suspended) || r == Ok(Blocked)
    {
      hide Logged, WorkLeft;
      ghost var w1;
      var result;
      result, w1 := Resume(h, w0, e);
      r := result;
      spins := Settle(h, result, w1);
    }

    /** Where the coroutine is whose result main_coro has just taken. */
    lemma ReturnedIsThere(h: Ptr, r: YieldResult, w1: World)
      requires Logged(w1) && w1 == AbsWith(curRunning, Some(r), Returned(h))
      ensures h in heap && (r == Ok(Blocked) ==> exists t :: t in slab && slab[t] == h)
    {
      PlayGood(1, start, moves);
      var pl :| Inv(w1.sys, pl);
      ReturnedPlaced(w1.sys, pl, w1.sys.procs[0], h);
    }

    /** What run_task does with the result of resume. */
    method Settle(h: Ptr, r: YieldResult, ghost w1: World) returns (spins: bool)
      requires Logged(w1) && AllCount(ctxs) && Calm() && active.None? && rounds > 0
      requires w1 == AbsWith(curRunning, Some(r), Returned(h)) && pc == Returned(h) && lastResult.None?
      modifies this`pc, this`moves, this`heap, this`pool, this`freed, scheduler
      ensures Valid() && Calm() && old(moves) <= moves && WorkLeft(Abs()) <= WorkLeft(w1)
      ensures if spins then pc.Pushing? && |scheduler.queue| >= GLOBAL_QUEUE_SIZE else pc == Draining
      ensures spins ==> r == Ok(Suspended)
      ensures scheduler.queue == old(scheduler.queue) + if r == Ok(Suspended) && !spins then [h] else []
      ensures r == Ok(Blocked) ==> exists t :: t in slab && slab[t] == h
      ensures h in heap <==> r == Ok(Suspended) || r == Ok(Blocked)
    {
      hide Logged, WorkLeft, Perform, CanMove;
      ReturnedIsThere(h, r, w1);
      spins := false;
      match r {
        case Ok(Suspended) =>
          Suspend(h, w1);
          spins := PushBack(h, None);
        case Ok(Blocked) =>
          LeaveBlocked(h, w1);
        case _ =>
          Finish(h, r, w1);
      }
    }

    /** Scheduler::finished. */
    method Finish(h: Ptr, r: YieldResult, ghost w1: World)
      requires Logged(w1) && AllCount(ctxs) && active.None? && rounds > 0
      requires lastResult.None? && pc == Returned(h)
      requires r != Ok(Suspended) && r != Ok(Blocked) && w1 == AbsWith(curRunning, Some(r), Returned(h))
      modifies this`pc, this`moves, this`heap, this`pool, this`freed, scheduler`workCounts
      ensures Valid() && old(moves) <= moves && WorkLeft(Abs()) <= WorkLeft(w1) && pc == Draining
      ensures heap == old(heap) - {h}
    {
      hide Logged, WorkLeft;
      Subtract(h, r, w1);
      DropBox(h);
    }

    /** ready(h), called by run_task or, with the tokens still to dispatch, by the handler. */
    method PushBack(h: Ptr, ghost rest: Option<seq<Token>>) returns (spins: bool)
      requires Valid() && Calm() && pc == Pushing(h, rest)
      modifies this`pc, this`moves, scheduler`queue
      ensures Valid() && Calm() && old(moves) <= moves && WorkLeft(Abs()) <= old(WorkLeft(Abs()))
      ensures spins ==>
        pc == old(pc) && scheduler.queue == old(scheduler.queue) && |scheduler.queue| >= GLOBAL_QUEUE_SIZE
      ensures !spins ==> pc == (match rest case None => Draining case Some(ts) => Dispatching(ts))
      ensures !spins ==> scheduler.queue == old(scheduler.queue) + [h]
    {
      hide Logged, WorkLeft;
      ghost var w := Abs();
      var pushed := scheduler.Ready(h, rounds);
      spins := !pushed;
      if pushed {
        PushEffect(w.sys, w.sys.procs[0]);
        pc := match rest case None => Draining case Some(ts) => Dispatching(ts);
        assert Abs() == Perform(w, Kernel(Push(0)));
        Record(w, Kernel(Push(0)));
      }
    }

    // ---- the event loop ---------------------------------------------------------------

    /** IoHandler::ready: wake whoever waits under the token, if anybody still does. */
    method HandleEvent(token: Token, ghost rest: seq<Token>) returns (spins: bool)
      requires Valid() && Calm() && pc == Dispatching([token] + rest)
      modifies this`slab, this`pc, this`moves, scheduler`queue
      ensures Valid() && Calm() && old(moves) <= moves
      ensures WorkLeft(Abs()) <= old(WorkLeft(Abs())) && (token in old(slab) ==> WorkLeft(Abs()) < old(WorkLeft(Abs())))
      ensures slab == old(slab) - {token}
      ensures spins ==> pc.Pushing? && |scheduler.queue| >= GLOBAL_QUEUE_SIZE
      ensures !spins ==> pc == Dispatching(rest)
      ensures !spins ==> scheduler.queue == old(scheduler.queue) + if token in old(slab) then [old(slab)[token]] else []
    {
      hide Logged, WorkLeft;
      if token in slab {
        var h := RemoveParked(token, rest);
        spins := PushBack(h, Some(rest));
      } else {
        assert slab - {token} == slab && scheduler.queue + [] == scheduler.queue;
        SkipToken(token, rest);
        spins := false;
      }
    }

    /** Slab::remove that finds a coroutine. */
    method RemoveParked(token: Token, ghost rest: seq<Token>) returns (h: Ptr)
      requires Valid() && Calm() && pc == Dispatching([token] + rest) && token in slab
      modifies this`slab, this`pc, this`moves
      ensures Valid() && Calm() && old(moves) <= moves && WorkLeft(Abs()) < old(WorkLeft(Abs()))
      ensures h == old(slab)[token] && slab == old(slab) - {token} && pc == Pushing(h, Some(rest))
    {
      hide Logged, WorkLeft;
      ghost var w := Abs();
      TakeEffect(w.sys, w.sys.procs[0], token, rest);
      h := slab[token];
      slab := slab - {token};
      pc := Pushing(h, Some(rest));
      assert Abs() == Perform(w, Kernel(Dispatch(0)));
      Record(w, Kernel(Dispatch(0)));
    }

    /** Slab::remove that finds nobody. */
    ghost method SkipToken(token: Token, rest: seq<Token>)
      requires Valid() && pc == Dispatching([token] + rest) && token !in slab
      modifies this`pc, this`moves
      ensures Valid() && old(moves) <= moves && WorkLeft(Abs()) <= old(WorkLeft(Abs())) && pc == Dispatching(rest)
    {
      hide Logged, WorkLeft;
      var w := Abs();
      SkipEffect(w.sys, w.sys.procs[0], token, rest);
      pc := Dispatching(rest);
      assert Abs() == Perform(w, Kernel(Dispatch(0)));
      Record(w, Kernel(Dispatch(0)));
    }

    /** run_once: the source reports a batch of tokens, each of which goes to the handler. */
    method RunOnce() returns (ok: bool, spins: bool)
      requires Valid() && Calm() && pc == Polling && slab != map[] && Lively(source)
      modifies this`slab, this`pc, this`moves, this`polls, scheduler`queue
      ensures Valid() && Calm() && old(moves) <= moves && WorkLeft(Abs()) <= old(WorkLeft(Abs()))
      ensures polls == old(polls) + 1 && (ok <==> source(old(polls), old(slab)).Some?)
      ensures !ok ==> pc == Exited(false) && !spins
      ensures spins ==> pc.Pushing? && |scheduler.queue| >= GLOBAL_QUEUE_SIZE
      ensures ok && !spins ==> pc == Draining && WorkLeft(Abs()) < old(WorkLeft(Abs()))
      ensures ok && !spins ==> slab == Remaining(old(slab), source(old(polls), old(slab)).value)
      ensures ok && !spins ==>
        scheduler.queue == old(scheduler.queue) + Woken(old(slab), source(old(polls), old(slab)).value)
    {
      hide Logged, WorkLeft, Woken, Remaining;
      var events := source(polls, slab);
      match events {
        case None =>
          Polled(Exited(false), PollError(0));
          ok, spins := false, false;
        case Some(batch) =>
          Polled(Dispatching(batch), Poll(0, batch));
          ok := true;
          spins := DispatchAll(batch);
      }
    }

    /** The event loop has answered, with e. */
    method Polled(ghost next: Pc, ghost e: Event)
      requires Valid() && pc == Polling
      requires match source(polls, slab)
        case None => next == Exited(false) && e == PollError(0)
        case Some(batch) => next == Dispatching(batch) && e == Poll(0, batch)
      modifies this`pc, this`moves, this`polls
      ensures Valid() && old(moves) <= moves && WorkLeft(Abs()) <= old(WorkLeft(Abs())) && pc == next
      ensures polls == old(polls) + 1
    {
      hide WorkLeft, Play, Asked, Fitting;
      ghost var w, k := Abs(), polls;
      if e.Poll? {
        PollEffect(w.sys, w.sys.procs[0], e.batch);
      } else {
        PollErrorEffect(w.sys, w.sys.procs[0]);
      }
      polls := polls + 1;
      pc := next;
      assert Abs() == Perform(w, Kernel(e));
      RecordFitting(w, Kernel(e), k);
    }

    method DispatchAll(batch: seq<Token>) returns (spins: bool)
      requires Valid() && Calm() && pc == Dispatching(batch)
      modifies this`slab, this`pc, this`moves, scheduler`queue
      ensures Valid() && Calm() && old(moves) <= moves && WorkLeft(Abs()) <= old(WorkLeft(Abs()))
      ensures spins ==> pc.Pushing? && |scheduler.queue| >= GLOBAL_QUEUE_SIZE
      ensures !spins ==> pc == Draining && slab == Remaining(old(slab), batch)
      ensures !spins ==> scheduler.queue == old(scheduler.queue) + Woken(old(slab), batch)
      ensures !spins && (exists j :: 0 <= j < |batch| && batch[j] in old(slab)) ==>
        WorkLeft(Abs()) < old(WorkLeft(Abs()))
    {
      hide Logged, Delivered, Remaining, Woken;
      ghost var slab0, queue0, work := slab, scheduler.queue, WorkLeft(Abs());
      DeliveredNone(slab0, queue0, batch);
      var i := 0;
      spins := false;
      while i < |batch| && !spins
        invariant 0 <= i <= |batch| && Valid() && Calm() && old(moves) <= moves
        invariant WorkLeft(Abs()) + (if slab != slab0 then 1 else 0) <= work
        invariant spins ==> pc.Pushing? && |scheduler.queue| >= GLOBAL_QUEUE_SIZE
        invariant !spins ==> pc == Dispatching(batch[i..]) && Delivered(slab0, queue0, batch, i, slab, scheduler.queue)
      {
        spins := DispatchNext(batch, i, slab0, queue0);
        i := i + 1;
      }
      if !spins {
        DeliveredAll(slab0, queue0, batch, slab, scheduler.queue);
        StopDispatching(batch[i..]);
      }
    }

    /** One event of the batch. */
    method DispatchNext(batch: seq<Token>, i: nat, ghost slab0: map<Token, Ptr>, ghost queue0: seq<Ptr>)
      returns (spins: bool)
      requires Valid() && Calm() && i < |batch| && pc == Dispatching(batch[i..])
      requires Delivered(slab0, queue0, batch, i, slab, scheduler.queue)
      modifies this`slab, this`pc, this`moves, scheduler`queue
      ensures Valid() && Calm() && old(moves) <= moves
      ensures WorkLeft(Abs()) + (if slab != old(slab) then 1 else 0) <= old(WorkLeft(Abs()))
      ensures spins ==> pc.Pushing? && |scheduler.queue| >= GLOBAL_QUEUE_SIZE
      ensures !spins ==>
        pc == Dispatching(batch[i + 1..]) && Delivered(slab0, queue0, batch, i + 1, slab, scheduler.queue)
    {
      hide Logged, WorkLeft, Delivered, Remaining, Woken;
      DeliveredStep(slab0, queue0, batch, i, slab, scheduler.queue);
      assert batch[i] !in slab ==> slab - {batch[i]} == slab;
      spins := HandleEvent(batch[i], batch[i + 1..]);
    }

    ghost method StopDispatching(rest: seq<Token>)
      requires Valid() && Calm() && pc == Dispatching(rest) && rest == []
      modifies this`pc, this`moves
      ensures Valid() && Calm() && pc == Draining && old(moves) <= moves && WorkLeft(Abs()) <= old(WorkLeft(Abs()))
    {
      hide Logged, WorkLeft;
      var w := Abs();
      DispatchedEffect(w.sys, w.sys.procs[0]);
      pc := Draining;
      assert Abs() == Perform(w, Kernel(Dispatch(0)));
      Record(w, Kernel(Dispatch(0)));
    }

    // ---- schedule -----------------------------------------------------------------------

    /** `while let Some(hdl) = new_spawned.take() { run_task(hdl) }` */
    method Drain() returns (spins: bool)
      requires Valid() && Calm() && pc == Draining
      modifies this, scheduler, mutex
      ensures Valid() && Calm() && old(moves) <= moves
      ensures WorkLeft(Abs()) + (if old(newSpawned).Some? then 1 else 0) <= old(WorkLeft(Abs()))
      ensures if spins then pc.Pushing? && |scheduler.queue| >= GLOBAL_QUEUE_SIZE else pc == Popping && newSpawned.None?
      ensures old(scheduler.queue) <= scheduler.queue
    {
      hide Logged, WorkLeft;
      spins := false;
      while newSpawned.Some? && !spins
        invariant Valid() && Calm() && old(moves) <= moves
        invariant WorkLeft(Abs()) <= old(WorkLeft(Abs()))
        invariant WorkLeft(Abs()) < old(WorkLeft(Abs())) || newSpawned == old(newSpawned)
        invariant old(scheduler.queue) <= scheduler.queue
        invariant if spins then pc.Pushing? && |scheduler.queue| >= GLOBAL_QUEUE_SIZE else pc == Draining
        invariant spins ==> WorkLeft(Abs()) < old(WorkLeft(Abs()))
        decreases WorkLeft(Abs()), !spins
      {
        spins := RunSpawned();
      }
      if !spins {
        LeaveDrain();
      }
    }

    /** One round of that loop. */
    method RunSpawned() returns (spins: bool)
      requires Valid() && Calm() && pc == Draining && newSpawned.Some?
      modifies this, scheduler, mutex
      ensures Valid() && Calm() && old(moves) <= moves && WorkLeft(Abs()) < old(WorkLeft(Abs()))
      ensures if spins then pc.Pushing? && |scheduler.queue| >= GLOBAL_QUEUE_SIZE else pc == Draining
      ensures old(scheduler.queue) <= scheduler.queue
    {
      hide Logged, WorkLeft;
      ghost var w := Abs();
      var h := newSpawned.value;
      DrainEffect(w.sys, w.sys.procs[0], h);
      newSpawned := None;
      assert AbsWith(Some(h), lastResult, Executing(h)) == Perform(w, Kernel(Protocol.Drain(0)));
      ghost var r;
      spins, r := RunTask(h, w, Protocol.Drain(0));
    }

    ghost method LeaveDrain()
      requires Valid() && pc == Draining && newSpawned.None?
      modifies this`pc, this`moves
      ensures Valid() && old(moves) <= moves && WorkLeft(Abs()) <= old(WorkLeft(Abs())) && pc == Popping
    {
      hide Logged, WorkLeft;
      var w := Abs();
      DrainedEffect(w.sys, w.sys.procs[0]);
      pc := Popping;
      assert Abs() == Perform(w, Kernel(Protocol.Drain(0)));
      Record(w, Kernel(Protocol.Drain(0)));
    }

    /** The checks that follow an empty pop: the slab, then the counter. */
    method LookForWork() returns (polls: bool, done: bool)
      requires Valid() && Calm() && pc == CheckingSlab && scheduler.queue == []
      modifies this`pc, this`moves
      ensures Valid() && Calm() && old(moves) <= moves && WorkLeft(Abs()) <= old(WorkLeft(Abs()))
      ensures polls ==> pc == Polling && slab != map[]
      ensures done ==> pc == Exited(true)
      ensures !polls && !done ==> pc == Draining && newSpawned.Some?
    {
      hide Logged, WorkLeft;
      polls, done := |slab| != 0, false;
      LeaveSlabCheck();
      if !polls {
        done := CheckCounter();
      }
    }

    ghost method LeaveSlabCheck()
      requires Valid() && pc == CheckingSlab
      modifies this`pc, this`moves
      ensures Valid() && old(moves) <= moves && WorkLeft(Abs()) <= old(WorkLeft(Abs()))
      ensures pc == if |slab| != 0 then Polling else CheckingCount
    {
      hide Logged, WorkLeft;
      var w := Abs();
      CheckSlabEffect(w.sys, w.sys.procs[0]);
      pc := if |slab| != 0 then Polling else CheckingCount;
      assert Abs() == Perform(w, Kernel(CheckSlab(0)));
      Record(w, Kernel(CheckSlab(0)));
    }

    /** Counted work that is neither queued nor parked waits in new_spawned. */
    lemma WorkIsSpawned()
      requires Valid() && pc == CheckingCount && scheduler.queue == [] && slab == map[] && scheduler.workCounts != 0
      ensures newSpawned.Some?
    {
      PlayRefines(Boot(1, start), moves);
      SleepsOnlyAtBoot(EventsOf(Boot(1, start), moves), Abs().sys);
    }

    /** `work_count() == 0`, else sleep: only before the top-level coroutine has run. */
    method CheckCounter() returns (done: bool)
      requires Valid() && Calm() && pc == CheckingCount && scheduler.queue == [] && slab == map[]
      modifies this`pc, this`moves
      ensures Valid() && Calm() && old(moves) <= moves && WorkLeft(Abs()) <= old(WorkLeft(Abs()))
      ensures done <==> scheduler.workCounts == 0
      ensures if done then pc == Exited(true) else pc == Draining && newSpawned.Some?
    {
      hide Logged, WorkLeft;
      done := scheduler.workCounts == 0;
      if !done {
        WorkIsSpawned();
      }
      LeaveCountCheck();
    }

    ghost method LeaveCountCheck()
      requires Valid() && pc == CheckingCount
      modifies this`pc, this`moves
      ensures Valid() && old(moves) <= moves && WorkLeft(Abs()) <= old(WorkLeft(Abs()))
      ensures pc == if scheduler.workCounts == 0 then Exited(true) else Draining
    {
      hide Logged, WorkLeft;
      var w := Abs();
      CheckCountEffect(w.sys, w.sys.procs[0]);
      pc := if scheduler.workCounts == 0 then Exited(true) else Draining;
      assert Abs() == Perform(w, Kernel(CheckCount(0)));
      Record(w, Kernel(CheckCount(0)));
    }

    /** The state in which schedule stops. */
    ghost predicate EndsAs(outcome: Outcome)
      reads this, scheduler
    {
      match outcome
      case Finished => pc == Exited(true)
      case IoError => pc == Exited(false) && Fails(source)
      case Spins => pc.Pushing? && |scheduler.queue| >= GLOBAL_QUEUE_SIZE
    }

    /** One turn of the loop of schedule, up to the drain of new_spawned. */
    method Turn() returns (outcome: Option<Outcome>)
      requires Valid() && Calm() && pc == Popping && Lively(source)
      modifies this, scheduler, mutex
      ensures Valid() && Calm() && old(moves) <= moves
      ensures WorkLeft(Abs()) <= old(WorkLeft(Abs()))
      ensures outcome.None? ==> pc == Draining && (WorkLeft(Abs()) < old(WorkLeft(Abs())) || newSpawned.Some?)
      ensures outcome.Some? ==> EndsAs(outcome.value)
    {
      hide Logged, WorkLeft;
      ghost var w := Abs();
      var hdl := scheduler.Pop();
      match hdl {
        case Some(h) =>
          var spins := RunPopped(h, w);
          outcome := if spins then Some(Spins) else None;
        case None =>
          outcome := TurnIdle();
      }
    }

    /** The handle h has just been popped; w is the state before. */
    method RunPopped(h: Ptr, ghost w: World) returns (spins: bool)
      requires Logged(w) && AllCount(w.ctxs) && Calm() && rounds > 0
      requires pc == Popping && w.sys.queue != [] && w.sys.queue[0] == h
      requires Abs() == w.(sys := w.sys.(queue := w.sys.queue[1..]))
      modifies this, scheduler, mutex
      ensures Valid() && Calm() && old(moves) <= moves && WorkLeft(Abs()) < WorkLeft(w)
      ensures if spins then pc.Pushing? && |scheduler.queue| >= GLOBAL_QUEUE_SIZE else pc == Draining
    {
      hide Logged, WorkLeft;
      PopEffect(w.sys, w.sys.procs[0]);
      assert AbsWith(Some(h), lastResult, Executing(h)) == Perform(w, Kernel(Protocol.Pop(0)));
      ghost var r;
      spins, r := RunTask(h, w, Protocol.Pop(0));
    }

    /** The turn that finds the queue empty. */
    method TurnIdle() returns (outcome: Option<Outcome>)
      requires Valid() && Calm() && pc == Popping && scheduler.queue == [] && Lively(source)
      modifies this`pc, this`moves, this`slab, this`polls, scheduler`queue
      ensures Valid() && Calm() && old(moves) <= moves
      ensures WorkLeft(Abs()) <= old(WorkLeft(Abs()))
      ensures outcome.None? ==> pc == Draining && (WorkLeft(Abs()) < old(WorkLeft(Abs())) || newSpawned.Some?)
      ensures outcome.Some? ==> EndsAs(outcome.value)
    {
      hide Logged, WorkLeft;
      EmptyPop();
      var polls, done := LookForWork();
      if polls {
        outcome := PollOnce();
      } else {
        outcome := if done then Some(Outcome.Finished) else None;
      }
    }

    /** `try!(run_once())` */
    method PollOnce() returns (outcome: Option<Outcome>)
      requires Valid() && Calm() && pc == Polling && slab != map[] && Lively(source)
      modifies this`pc, this`moves, this`slab, this`polls, scheduler`queue
      ensures Valid() && Calm() && old(moves) <= moves && WorkLeft(Abs()) <= old(WorkLeft(Abs()))
      ensures outcome.None? ==> pc == Draining && WorkLeft(Abs()) < old(WorkLeft(Abs()))
      ensures outcome.Some? ==> EndsAs(outcome.value)
    {
      hide Logged, WorkLeft;
      ghost var k, parked := polls, slab;
      var ok, spins := RunOnce();
      assert !ok ==> parked != map[] && source(k, parked).None?;
      outcome := if !ok then Some(IoError) else if spins then Some(Spins) else None;
    }

    /** A pop that returns None. */
    method EmptyPop()
      requires Valid() && pc == Popping && scheduler.queue == []
      modifies this`pc, this`moves
      ensures Valid() && old(moves) <= moves && WorkLeft(Abs()) <= old(WorkLeft(Abs())) && pc == CheckingSlab
    {
      hide Logged, WorkLeft;
      ghost var w := Abs();
      EmptyPopEffect(w.sys, w.sys.procs[0]);
      pc := CheckingSlab;
      assert Abs() == Perform(w, Kernel(Protocol.Pop(0)));
      Record(w, Kernel(Protocol.Pop(0)));
    }

    /** The loop of schedule. It ends, whatever the scripts and the events are: each turn
        leaves less work, because sleeping happens only when new_spawned is full. */
    method Schedule() returns (outcome: Outcome)
      requires Valid() && Calm() && pc == Popping && Lively(source)
      modifies this, scheduler, mutex
      ensures Valid() && old(moves) <= moves && EndsAs(outcome)
      ensures outcome.IoError? <==> SomeError(source, Calls())
    {
      hide Logged, WorkLeft;
      var result: Option<Outcome> := None;
      while result.None?
        invariant Valid() && Calm() && old(moves) <= moves
        invariant if result.None? then pc == Popping else EndsAs(result.value)
        decreases WorkLeft(Abs()), result.None?
      {
        result := Turn();
        if result.None? {
          var spins := Drain();
          if spins {
            result := Some(Spins);
          }
        }
      }
      outcome := result.value;
      ErrorsShow();
    }

    // ---- the top level ------------------------------------------------------------------

    /** Scheduler::spawn from outside any coroutine, the one that is allowed: the new
        coroutine stays in new_spawned, because sched does nothing here. */
    method Launch(script: seq<Action>)
      requires Valid() && pc == Outside && moves == [] && mutex.data == start
      modifies this, scheduler`workCounts
      ensures Valid() && Calm() && pc == Outside && trace == [Root(script)]
    {
      assert Abs() == Boot(1, start);
      ghost var w := Abs();
      scheduler.workCounts := scheduler.workCounts + 1;
      pc := TopCounted;
      assert Abs() == Perform(w, Kernel(TopCount(0)));
      Record(w, Kernel(TopCount(0)));
      var ptr := FindFree(heap.Keys);
      var stack := TakeStack();
      LaunchCounted(script, ptr, stack);
    }

    method LaunchCounted(script: seq<Action>, ptr: Ptr, stack: Stack)
      requires Valid() && pc == TopCounted && ctxs == [] && births == [] && trace == []
      requires ptr !in heap && (if pool != {} then stack in pool else stack !in stacks) && curRunning.None?
      modifies this
      ensures Valid() && Calm() && pc == Outside && trace == [Root(script)]
    {
      hide Logged, WorkLeft;
      ghost var w := Abs();
      FillSlot(script, ptr, stack);
      assert Abs() == AfterLaunch(w, w.sys.procs[0], ptr, stack, script);
      RecordLaunch(w, ptr, stack, script);
    }

    /** Processor::spawn_opts where no coroutine runs: sched does nothing. */
    method FillSlot(script: seq<Action>, ptr: Ptr, stack: Stack)
      requires pc == TopCounted && ctxs == [] && births == [] && trace == [] && curRunning.None?
      modifies this`heap, this`pool, this`stacks, this`ctxs, this`births, this`trace, this`newSpawned, this`pc
      modifies this`curRunning, this`lastResult, this`active
      ensures pc == Outside && newSpawned == Some(ptr) && trace == [Root(script)] && ctxs == [NewCtx(script)] &&
        births == [ptr]
      ensures heap == old(heap)[ptr := Coroutine(0, stack, false)]
      ensures pool == old(pool) - {stack} && stacks == old(stacks) + {stack}
      ensures curRunning == old(curRunning) && lastResult == old(lastResult) && active == old(active)
    {
      trace := [Root(script)];
      NewCoroutine(ptr, stack, script);
      assert ctxs == [NewCtx(script)] && births == [ptr];
      newSpawned := Some(ptr);
      Sched();
      pc := Outside;
    }

    ghost method RecordLaunch(w: World, ptr: Ptr, stack: Stack, script: seq<Action>)
      requires Logged(w) && |w.sys.procs| == 1 && w.sys.procs[0].pc == TopCounted
      requires w.ctxs == [] && w.sys.births == [] && w.trace == [] && CanCreate(w.sys, 0, ptr, stack)
      requires w.sys.procs[0].pool != {} ==> stack in w.sys.procs[0].pool
      requires Abs() == AfterLaunch(w, w.sys.procs[0], ptr, stack, script) && active.None? && rounds > 0
      modifies this`moves
      ensures Valid() && Calm() && moves == old(moves) + [Programs.Move.Launch(0, ptr, stack, script)]
    {
      hide Play, Asked, Fitting;
      assert w.sys.procs == [w.sys.procs[0]];
      LaunchEffect(w, w.sys.procs[0], ptr, stack, script);
      FittingSnoc(Boot(1, start), source, moves, w, Programs.Move.Launch(0, ptr, stack, script));
      moves := moves + [Programs.Move.Launch(0, ptr, stack, script)];
    }

    lemma NobodyPanics(script: seq<Action>)
      requires Valid() && trace != [] && trace[0] == Root(script) && Tame(script, false)
      ensures NonePanicked(ctxs)
    {
      hide Play, Asked, Fitting, Tame;
      forall k | 0 <= k < |moves| && moves[k].Launch? ensures moves[k].script == script {
        LaunchIsRoot(1, start, moves, k);
      }
      TameRun(start, moves, Abs());
    }

    /** What any run of a launched script keeps to. */
    lemma Bounded(script: seq<Action>)
      requires Valid() && trace != [] && trace[0] == Root(script)
      ensures |stacks| <= Peak(script)
      ensures SpawnsIn(script) < 102400 ==> NoWaitThrew(trace)
      ensures pc == Exited(false) <==> SomeError(source, Calls())
    {
      hide Play, Fitting, Asked, SomeError, Peak;
      MappedWithinPeak(start, source, moves, Abs(), script);
      ErrorsShow();
      LiveWithinBudget(1, start, moves, Abs(), script);
      if SpawnsIn(script) < 102400 {
        WaitsSucceed(1, start, moves, Abs());
      }
    }

    /** What the end of a run says about the whole of it. */
    lemma CleanlyEnded(script: seq<Action>)
      requires Valid() && pc == Exited(true) && trace != [] && trace[0] == Root(script)
      ensures Concluded(Abs(), script)
      ensures Disciplined(script, false, false) && NonePanicked(ctxs) ==> mutex.data == start + StoresIn(script)
      ensures Disciplined(script, false, false) && Tame(script, false) ==> mutex.data == start + StoresIn(script)
      ensures NonePanicked(ctxs) || Tame(script, false) ==> |ctxs| == 1 + SpawnsIn(script)
    {
      hide Play, Asked, Fitting, Budget;
      CleanEnd(start, moves, Abs(), script);
      if Tame(script, false) {
        NobodyPanics(script);
      }
      if NonePanicked(ctxs) {
        AllBorn(1, start, moves, Abs());
        TraceHasOneRoot(1, start, moves);
        BudgetOfRoot(trace, script);
      }
      if Disciplined(script, false, false) {
        if NonePanicked(ctxs) {
          CleanTotal(start, moves, Abs(), script);
        } else if Tame(script, false) {
          TameTotal(start, moves, Abs(), script);
        }
      }
    }

    lemma UncleanlyEnded(script: seq<Action>)
      requires Valid() && trace != [] && trace[0] == Root(script)
      ensures pc == Exited(false) ==> slab != map[] && !NeverWaits(script)
      ensures pc.Pushing? && |scheduler.queue| >= GLOBAL_QUEUE_SIZE ==> GLOBAL_QUEUE_SIZE < |heap| <= Peak(script)
    {
      hide Play, Asked, Fitting;
      if pc == Exited(false) {
        ErrorEnd(start, moves, Abs());
        if NeverWaits(script) {
          forall k | 0 <= k < |moves| && moves[k].Launch? ensures moves[k].script == script {
            LaunchIsRoot(1, start, moves, k);
          }
          WaitlessRun(1, start, moves, Abs());
        }
      } else if pc.Pushing? && |scheduler.queue| >= GLOBAL_QUEUE_SIZE {
        SpinningEnd(start, moves, Abs());
        LiveWithinPeak(start, moves, Abs(), script);
      }
    }

    lemma LogIsRun(w: World)
      requires Logged(w)
      ensures Play(Boot(1, start), moves) == Some(w)
    {
    }

    /** The trace only grows. */
    lemma TraceKept(k: nat)
      requires Valid() && k <= |moves|
      ensures Play(Boot(1, start), moves[..k]).Some? && Play(Boot(1, start), moves[..k]).value.trace <= trace
    {
      TraceGrows(Boot(1, start), moves, k);
    }

    /** Scheduler::run(1): schedule on this thread. */
    method Run() returns (outcome: Outcome)
      requires Valid() && Calm() && pc == Outside && Lively(source)
      modifies this, scheduler, mutex
      ensures Valid() && old(moves) <= moves && old(trace) <= trace && EndsAs(outcome)
    {
      hide Logged, Play, WorkLeft;
      ghost var ms, w := moves, Abs();
      LogIsRun(w);
      pc := Popping;
      assert Abs() == Perform(w, Kernel(Protocol.Start(0)));
      Record(w, Kernel(Protocol.Start(0)));
      outcome := Schedule();
      assert moves[..|ms|] == ms;
      TraceKept(|ms|);
    }
  }

  /** `Scheduler::spawn(script); Scheduler::run(1)` with an event source that, whenever it
      succeeds, wakes somebody. If schedule returns without error, every coroutine has run to
      its end, and if the script is disciplined and nobody has panicked, no store through the
      mutex has been lost. It returns with an error only if the source has failed while
      somebody was parked, and it fails to return only by spinning with more coroutines alive
      than the ready queue can hold. So it returns without error whenever the script cannot
      have that many coroutines alive, and does not wait or the source does not fail. */
  method SpawnAndRun(script: seq<Action>, data: int, rounds: nat, source: EventSource)
    returns (p: Processor, outcome: Outcome)
    requires rounds > 0 && Lively(source)
    ensures p.Valid() && p.start == data && p.EndsAs(outcome) && p.source == source
    ensures Peak(script) <= GLOBAL_QUEUE_SIZE && (NeverWaits(script) || !Fails(source)) ==> outcome.Finished?
    ensures outcome.Finished? ==> Concluded(p.Abs(), script)
    ensures outcome.Finished? && Disciplined(script, false, false) && NonePanicked(p.ctxs)
      ==> p.mutex.data == data + StoresIn(script)
    ensures outcome.Finished? && Disciplined(script, false, false) && Tame(script, false)
      ==> p.mutex.data == data + StoresIn(script)
    ensures outcome.IoError? ==> Fails(source) && p.slab != map[] && !NeverWaits(script)
    ensures outcome.Spins? ==> GLOBAL_QUEUE_SIZE < |p.heap| <= Peak(script)
    ensures outcome.IoError? <==> SomeError(source, p.Calls())
    ensures SpawnsIn(script) < 4096 ==> !outcome.Spins?
    ensures SpawnsIn(script) < 4096 && NeverWaits(script) ==> outcome.Finished?
    ensures SpawnsIn(script) < 102400 ==> NoWaitThrew(p.trace)
    ensures |p.stacks| <= Peak(script)
    ensures outcome.Finished? && (NonePanicked(p.ctxs) || Tame(script, false)) ==> |p.ctxs| == 1 + SpawnsIn(script)
  {
    var scheduler := new Scheduler();
    var mutex := new Mutex(data);
    p := new Processor(scheduler, mutex, rounds, source);
    p.Launch(script);
    outcome := p.Run();
    p.Bounded(script);
    if outcome.Finished? {
      p.CleanlyEnded(script);
    } else {
      p.UncleanlyEnded(script);
    }
  }

  /** The test of the source on one thread, for any number of coroutines and increments:
      it ends, and the total is their product. */
  method CounterProgram(coroutines: nat, times: nat, rounds: nat, source: EventSource)
    returns (total: int, born: nat, outcome: Outcome)
    requires rounds > 0 && Lively(source)
    ensures outcome == Outcome.Finished && total == coroutines * times && born == coroutines + 1
  {
    CounterTotal(coroutines, times);
    CounterShape(coroutines, times);
    CounterIsShallow(coroutines, times);
    var p;
    p, outcome := SpawnAndRun(Counter(coroutines, times), 0, rounds, source);
    total, born := p.mutex.data, |p.ctxs|;
  }
}
