/** The moves of a single processor, spelled out field by field for the methods of Runtime. */
module Moves {
  import opened Basics
  import opened Protocol
  import opened Programs
  import opened Work

  /** A step that needs no address, stack or token. */
  const STEP: Move := User(0, 0, 0, 0)

  /** The trace after a step of coroutine number id. */
  function Logged(w: World, id: nat, done: bool, c: Ctx): seq<Entry>
    requires id < |w.ctxs| && (done ==> w.ctxs[id].k < |w.ctxs[id].script|)
  {
    if done then w.trace + [Deed(id, w.ctxs[id], c)] else w.trace
  }

  /** Coroutine number id, which runs, takes a step that is no protocol event. */
  lemma Locally(w: World, id: nat, st: Step)
    requires InUser(w, 0) && RunId(w, 0) == id && w.sys.procs[0].pc.Executing?
    requires st == Behave(w.ctxs[id], w.sys.procs[0], w.locked, w.data, STEP) && st.event.None?
    requires st.done ==> w.ctxs[id].k < |w.ctxs[id].script|
    ensures CanMove(w, STEP) && EventOf(w, STEP).None?
    ensures Perform(w, STEP) == World(w.sys, w.ctxs[id := st.ctx], st.locked, st.data, Logged(w, id, st.done, st.ctx))
  {
    assert w.ctxs[id := st.ctx] + [] == w.ctxs[id := st.ctx] && w.trace + [] == w.trace;
  }

  /** ... or that is the event e, other than creating a child. */
  lemma ByEvent(w: World, m: Move, e: Event, id: nat, st: Step)
    requires m.User? && InUser(w, m.i) && RunId(w, m.i) == id && !w.sys.procs[m.i].pc.Counted? && Legal(w.sys, e)
    requires st == Behave(w.ctxs[id], w.sys.procs[m.i], w.locked, w.data, m) && st.event == Some(e)
    requires st.done ==> w.ctxs[id].k < |w.ctxs[id].script|
    ensures CanMove(w, m) && EventOf(w, m) == Some(e)
    ensures Perform(w, m) == World(Apply(w.sys, e), w.ctxs[id := st.ctx], st.locked, st.data,
      Logged(w, id, st.done, st.ctx))
  {
    assert w.ctxs[id := st.ctx] + [] == w.ctxs[id := st.ctx] && w.trace + [] == w.trace;
  }

  /** Coroutine number id, at h, goes to continuation c and yields Suspended. */
  function AfterYield(w: World, p: Proc, h: Ptr, id: nat, c: Ctx, done: bool): World
    requires id < |w.ctxs| && w.ctxs[id].k < |w.ctxs[id].script|
  {
    World(
      Sys([Proc(Returned(h), None, Some(Ok(Suspended)), p.newSpawned, p.slab, p.pool)],
          w.sys.queue, w.sys.workCount, w.sys.heap, w.sys.births, w.sys.freed, w.sys.stacks),
      w.ctxs[id := c], w.locked, w.data,
      w.trace + if done then [Deed(id, w.ctxs[id], c)] else [])
  }

  lemma YieldEffect(w: World, p: Proc, h: Ptr, id: nat, c: Ctx, done: bool)
    requires w.sys.procs == [p] && InUser(w, 0) && p.pc == Executing(h) && p.curRunning.Some?
    requires RunId(w, 0) == id && w.ctxs[id].k < |w.ctxs[id].script|
    requires Behave(w.ctxs[id], p, w.locked, w.data, STEP) == Step(c, done, Some(Sched(0)), w.locked, w.data)
    ensures CanMove(w, STEP) && EventOf(w, STEP) == Some(Sched(0)) &&
      Perform(w, STEP) == AfterYield(w, p, h, id, c, done)
  {
    ByEvent(w, STEP, Sched(0), id, StepOf(w, STEP));
  }

  lemma BlockEffect(s: Sys, p: Proc)
    requires s.procs == [p] && p.pc.InWait? && p.curRunning.Some?
    ensures Legal(s, Block(0))
    ensures Apply(s, Block(0)) ==
      s.(procs := [p.(curRunning := None, lastResult := Some(Ok(Blocked)), pc := Returned(p.pc.hdl))])
  {
  }

  lemma WaitEffect(s: Sys, p: Proc, t: Token)
    requires s.procs == [p] && RunsUserCode(s, 0) && t !in p.slab && |p.slab| < MAX_TOKEN_NUM
    ensures Legal(s, WaitInsert(0, t))
    ensures Apply(s, WaitInsert(0, t)) ==
      s.(procs := [p.(pc := InWait(p.pc.hdl, t), slab := p.slab[t := p.pc.hdl])])
  {
  }

  lemma CountEffect(s: Sys, p: Proc)
    requires s.procs == [p] && RunsUserCode(s, 0)
    ensures Legal(s, SpawnCount(0))
    ensures Apply(s, SpawnCount(0)) == s.(procs := [p.(pc := Counted(p.pc.hdl))], workCount := s.workCount + 1)
  {
  }

  /** The function is over and its guards have been dropped. */
  predicate AtEnd(c: Ctx) {
    c.guards == 0 && !c.dropping && (c.unwinding || c.k == |c.script|) && c.k <= |c.script|
  }

  /** Coroutine number id, at h, yields its end. */
  function AfterEnd(w: World, p: Proc, h: Ptr, id: nat): World
    requires id < |w.ctxs| && h in w.sys.heap
  {
    var c := w.ctxs[id];
    var r := if c.unwinding then Panicking else Ok(Finished);
    World(
      Sys([Proc(Returned(h), None, Some(r), p.newSpawned, p.slab, p.pool)],
          w.sys.queue, w.sys.workCount, w.sys.heap[h := w.sys.heap[h].(returned := true)],
          w.sys.births, w.sys.freed, w.sys.stacks),
      w.ctxs[id := c.(ended := true)], w.locked, w.data, w.trace)
  }

  lemma EndEffect(w: World, p: Proc, h: Ptr, id: nat)
    requires w.sys.procs == [p] && InUser(w, 0) && p.pc == Executing(h) && p.curRunning.Some?
    requires RunId(w, 0) == id && AtEnd(w.ctxs[id])
    ensures var m, e := User(0, 0, 0, 0), if w.ctxs[id].unwinding then Panic(0) else Return(0);
      CanMove(w, m) && EventOf(w, m) == Some(e) && Perform(w, m) == AfterEnd(w, p, h, id)
  {
    var ctxs := w.ctxs[id := w.ctxs[id].(ended := true)];
    assert w.trace + [] == w.trace && ctxs + [] == ctxs;
  }

  /** The counted child is created and its parent, coroutine number id at h, yields. */
  function AfterCreate(w: World, p: Proc, h: Ptr, id: nat, ptr: Ptr, stack: Stack): World
    requires id < |w.ctxs| && w.ctxs[id].k < |w.ctxs[id].script| && w.ctxs[id].script[w.ctxs[id].k].Spawn?
  {
    var c := w.ctxs[id];
    World(
      Sys([Proc(Returned(h), None, Some(Ok(Suspended)), Some(ptr), p.slab, p.pool - {stack})],
          w.sys.queue, w.sys.workCount, w.sys.heap[ptr := Coroutine(|w.sys.births|, stack, false)],
          w.sys.births + [ptr], w.sys.freed, w.sys.stacks + {stack}),
      w.ctxs[id := c.(k := c.k + 1)] + [NewCtx(c.script[c.k].body)], w.locked, w.data,
      w.trace + [Deed(id, c, c.(k := c.k + 1))])
  }

  lemma CreateEffect(w: World, p: Proc, h: Ptr, id: nat, ptr: Ptr, stack: Stack)
    requires w.sys.procs == [p] && InUser(w, 0) && p.pc == Counted(h) && p.curRunning.Some? &&
      CanCreate(w.sys, 0, ptr, stack)
    requires RunId(w, 0) == id
    ensures CanMove(w, User(0, ptr, stack, 0)) && EventOf(w, User(0, ptr, stack, 0)) == Some(SpawnCreate(0, ptr, stack))
    ensures Perform(w, User(0, ptr, stack, 0)) == AfterCreate(w, p, h, id, ptr, stack)
  {
  }

  /** The top-level coroutine is created, the first of all. */
  function AfterLaunch(w: World, p: Proc, ptr: Ptr, stack: Stack, script: seq<Action>): World {
    World(
      Sys([Proc(Outside, p.curRunning, p.lastResult, Some(ptr), p.slab, p.pool - {stack})],
          w.sys.queue, w.sys.workCount, w.sys.heap[ptr := Coroutine(0, stack, false)],
          [ptr], w.sys.freed, w.sys.stacks + {stack}),
      [NewCtx(script)], w.locked, w.data, [Root(script)])
  }

  lemma LaunchEffect(w: World, p: Proc, ptr: Ptr, stack: Stack, script: seq<Action>)
    requires w.sys.procs == [p] && p.pc == TopCounted && CanCreate(w.sys, 0, ptr, stack)
    requires w.ctxs == [] && w.sys.births == [] && w.trace == []
    ensures CanMove(w, Launch(0, ptr, stack, script))
    ensures Perform(w, Launch(0, ptr, stack, script)) == AfterLaunch(w, p, ptr, stack, script)
  {
  }

  // ---- kernel moves --------------------------------------------------------------------

  lemma PopEffect(s: Sys, p: Proc)
    requires s.procs == [p] && p.pc.Popping? && s.queue != []
    ensures Legal(s, Pop(0))
    ensures Apply(s, Pop(0)) ==
      s.(procs := [p.(curRunning := Some(s.queue[0]), pc := Executing(s.queue[0]))], queue := s.queue[1..])
  {
  }

  lemma EmptyPopEffect(s: Sys, p: Proc)
    requires s.procs == [p] && p.pc.Popping? && s.queue == []
    ensures Legal(s, Pop(0)) && Apply(s, Pop(0)) == s.(procs := [p.(pc := CheckingSlab)])
  {
  }

  lemma FinishEffect(s: Sys, p: Proc)
    requires s.procs == [p] && p.pc.Returned? && p.lastResult.Some?
    requires p.lastResult.value != Ok(Suspended) && p.lastResult.value != Ok(Blocked)
    ensures Legal(s, Handle(0))
    ensures Apply(s, Handle(0)) ==
      s.(procs := [p.(lastResult := None, pc := Freeing(p.pc.hdl))], workCount := FetchSub(s.workCount))
  {
  }

  lemma FreeEffect(s: Sys, p: Proc)
    requires s.procs == [p] && p.pc.Freeing? && p.pc.hdl in s.heap
    ensures Legal(s, Free(0))
    ensures var c := s.heap[p.pc.hdl];
      Apply(s, Free(0)) == s.(procs := [p.(pc := Draining, pool := p.pool + {c.stack})],
                              heap := s.heap - {p.pc.hdl}, freed := s.freed + [c.id])
  {
  }

  lemma SuspendEffect(s: Sys, p: Proc)
    requires s.procs == [p] && p.pc.Returned? && p.lastResult == Some(Ok(Suspended))
    ensures Legal(s, Handle(0))
    ensures Apply(s, Handle(0)) == s.(procs := [p.(lastResult := None, pc := Pushing(p.pc.hdl, None))])
  {
  }

  lemma BlockedEffect(s: Sys, p: Proc)
    requires s.procs == [p] && p.pc.Returned? && p.lastResult == Some(Ok(Blocked))
    ensures Legal(s, Handle(0))
    ensures Apply(s, Handle(0)) == s.(procs := [p.(lastResult := None, pc := Draining)])
  {
  }

  lemma PushEffect(s: Sys, p: Proc)
    requires s.procs == [p] && p.pc.Pushing? && |s.queue| < GLOBAL_QUEUE_SIZE
    ensures Legal(s, Push(0))
    ensures Apply(s, Push(0)) ==
      s.(procs := [p.(pc := match p.pc.rest case None => Draining case Some(ts) => Dispatching(ts))],
         queue := s.queue + [p.pc.hdl])
  {
  }

  lemma TakeEffect(s: Sys, p: Proc, t: Token, rest: seq<Token>)
    requires s.procs == [p] && p.pc == Dispatching([t] + rest) && t in p.slab
    ensures Legal(s, Dispatch(0)) && Advances(s, Dispatch(0))
    ensures Apply(s, Dispatch(0)) == s.(procs := [p.(pc := Pushing(p.slab[t], Some(rest)), slab := p.slab - {t})])
  {
    assert ([t] + rest)[1..] == rest;
  }

  lemma SkipEffect(s: Sys, p: Proc, t: Token, rest: seq<Token>)
    requires s.procs == [p] && p.pc == Dispatching([t] + rest) && t !in p.slab
    ensures Legal(s, Dispatch(0)) && Apply(s, Dispatch(0)) == s.(procs := [p.(pc := Dispatching(rest))])
  {
    assert ([t] + rest)[1..] == rest;
  }

  lemma DispatchedEffect(s: Sys, p: Proc)
    requires s.procs == [p] && p.pc == Dispatching([])
    ensures Legal(s, Dispatch(0)) && Apply(s, Dispatch(0)) == s.(procs := [p.(pc := Draining)])
  {
  }

  lemma CheckSlabEffect(s: Sys, p: Proc)
    requires s.procs == [p] && p.pc.CheckingSlab?
    ensures Legal(s, CheckSlab(0))
    ensures Apply(s, CheckSlab(0)) == s.(procs := [p.(pc := if |p.slab| != 0 then Polling else CheckingCount)])
  {
  }

  lemma CheckCountEffect(s: Sys, p: Proc)
    requires s.procs == [p] && p.pc.CheckingCount?
    ensures Legal(s, CheckCount(0))
    ensures Apply(s, CheckCount(0)) == s.(procs := [p.(pc := if s.workCount == 0 then Exited(true) else Draining)])
  {
  }

  lemma PollEffect(s: Sys, p: Proc, batch: seq<Token>)
    requires s.procs == [p] && p.pc.Polling?
    ensures Legal(s, Poll(0, batch)) && Apply(s, Poll(0, batch)) == s.(procs := [p.(pc := Dispatching(batch))])
  {
  }

  lemma PollErrorEffect(s: Sys, p: Proc)
    requires s.procs == [p] && p.pc.Polling?
    ensures Legal(s, PollError(0)) && Apply(s, PollError(0)) == s.(procs := [p.(pc := Exited(false))])
  {
  }

  lemma DrainEffect(s: Sys, p: Proc, h: Ptr)
    requires s.procs == [p] && p.pc.Draining? && p.newSpawned == Some(h)
    ensures Legal(s, Drain(0)) && Advances(s, Drain(0))
    ensures Apply(s, Drain(0)) == s.(procs := [p.(newSpawned := None, curRunning := Some(h), pc := Executing(h))])
  {
  }

  lemma DrainedEffect(s: Sys, p: Proc)
    requires s.procs == [p] && p.pc.Draining? && p.newSpawned.None?
    ensures Legal(s, Drain(0)) && Apply(s, Drain(0)) == s.(procs := [p.(pc := Popping)])
  {
  }
}
