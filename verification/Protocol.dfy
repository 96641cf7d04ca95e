/** The scheduling protocol of N processors that share one ready queue and one work
    counter, as a transition system. Coroutine handles are plain addresses which any
    component may copy, and a freed address may be handed out again: nothing about
    ownership is built in. Every atomic access to shared state is an event of its own. */
module Protocol {
  import opened Basics

  type Ptr = nat
  type Stack = nat
  type Token = nat

  const GLOBAL_QUEUE_SIZE: nat := 0x1000
  const MAX_TOKEN_NUM: nat := 102400
  const USIZE_VALUES: nat := 0x1_0000_0000_0000_0000

  /** coroutine::State and coroutine::Result<State>. */
  datatype CoState = Suspended | Blocked | Panicked | Finished
  datatype YieldResult = Ok(state: CoState) | Panicking

  /** A boxed coroutine. `returned` says that its function has ended, by return or panic,
      so that running it again would reach the trailing loop of coroutine_initialize. */
  datatype Coroutine = Coroutine(id: nat, stack: Stack, returned: bool)

  /** Where a thread is. `hdl` is the handle held by the local variable of run_task,
      ready or finished; Executing means that the thread runs that coroutine's code. */
  datatype Pc =
    | Outside                                        // not in `schedule` yet
    | TopCounted                                     // top-level spawn, between add and create
    | Popping | CheckingSlab | Polling | CheckingCount
    | Executing(hdl: Ptr)
    | Counted(hdl: Ptr)                              // spawn by a coroutine, between add and create
    | InWait(hdl: Ptr, token: Token)                 // wait_event, between insert and block
    | Returned(hdl: Ptr)                             // back on main_coro, inside resume
    | Pushing(hdl: Ptr, rest: Option<seq<Token>>)    // in ready, from run_task or from a batch
    | Freeing(hdl: Ptr)                              // in finished, after fetch_sub
    | Dispatching(batch: seq<Token>)                 // handing events to IoHandler::ready
    | Draining                                       // at `while let Some(hdl) = new_spawned.take()`
    | Exited(ok: bool)

  datatype Proc = Proc(
    pc: Pc,
    curRunning: Option<Ptr>,
    lastResult: Option<YieldResult>,
    newSpawned: Option<Ptr>,
    slab: map<Token, Ptr>,
    pool: set<Stack>)

  /** `births` lists the addresses of all coroutines ever created, in order of creation;
      `freed` the birth numbers of those dropped; `stacks` every stack ever mapped. */
  datatype Sys = Sys(
    procs: seq<Proc>,
    queue: seq<Ptr>,
    workCount: nat,
    heap: map<Ptr, Coroutine>,
    births: seq<Ptr>,
    freed: seq<nat>,
    stacks: set<Stack>)

  const NEW_PROC: Proc := Proc(Outside, None, None, None, map[], {})

  function Init(n: nat): Sys {
    Sys(seq(n, _ => NEW_PROC), [], 0, map[], [], [], {})
  }

  datatype Event =
    | TopCount(i: nat)
    | TopCreate(i: nat, ptr: Ptr, stack: Stack)
    | Start(i: nat)
    | Pop(i: nat)
    | CheckSlab(i: nat)
    | Poll(i: nat, batch: seq<Token>)
    | PollError(i: nat)
    | CheckCount(i: nat)
    | Dispatch(i: nat)
    | Push(i: nat)
    | Drain(i: nat)
    | Handle(i: nat)
    | Free(i: nat)
    // what the running coroutine does
    | Sched(i: nat)
    | SpawnCount(i: nat)
    | SpawnCreate(i: nat, ptr: Ptr, stack: Stack)
    | WaitInsert(i: nat, token: Token)
    | RegisterFail(i: nat, token: Token)
    | Block(i: nat)
    | Return(i: nat)
    | Panic(i: nat)
    | Trail(i: nat)

  /** fetch_sub on a usize: at zero it wraps around. (fetch_add would wrap only with 2^64
      coroutines in memory, so it is plain addition.) */
  function FetchSub(c: nat): nat {
    if c == 0 then USIZE_VALUES - 1 else c - 1
  }

  /** sched, block and yield_with: without a running coroutine they do nothing. */
  function YieldWith(p: Proc, hdl: Ptr, r: YieldResult): Proc {
    match p.curRunning
    case None => p.(pc := Executing(hdl))
    case Some(_) => p.(curRunning := None, lastResult := Some(r), pc := Returned(hdl))
  }

  function Resume(p: Proc, hdl: Ptr): Proc {
    p.(curRunning := Some(hdl), pc := Executing(hdl))
  }

  /** The coroutine whose code processor i runs is live and has not ended. */
  predicate RunsUserCode(s: Sys, i: nat)
    requires i < |s.procs|
  {
    var pc := s.procs[i].pc;
    pc.Executing? && pc.hdl in s.heap && !s.heap[pc.hdl].returned
  }

  predicate CanCreate(s: Sys, i: nat, ptr: Ptr, stack: Stack)
    requires i < |s.procs|
  {
    ptr !in s.heap && (stack in s.procs[i].pool || stack !in s.stacks)
  }

  predicate Enabled(s: Sys, e: Event) {
    e.i < |s.procs| &&
    var p := s.procs[e.i];
    match e
    case TopCount(_) => p.pc.Outside?
    case TopCreate(i, ptr, stack) => p.pc.TopCounted? && CanCreate(s, i, ptr, stack)
    case Start(_) => p.pc.Outside?
    case Pop(_) => p.pc.Popping?
    case CheckSlab(_) => p.pc.CheckingSlab?
    case Poll(_, _) => p.pc.Polling?
    case PollError(_) => p.pc.Polling?
    case CheckCount(_) => p.pc.CheckingCount?
    case Dispatch(_) => p.pc.Dispatching?
    case Push(_) => p.pc.Pushing?
    case Drain(_) => p.pc.Draining?
    case Handle(_) => p.pc.Returned?
    case Free(_) => p.pc.Freeing? && p.pc.hdl in s.heap
    case Sched(i) => RunsUserCode(s, i)
    case SpawnCount(i) => RunsUserCode(s, i)
    case SpawnCreate(i, ptr, stack) => p.pc.Counted? && CanCreate(s, i, ptr, stack)
    case WaitInsert(i, t) => RunsUserCode(s, i) && t !in p.slab && |p.slab| < MAX_TOKEN_NUM
    case RegisterFail(i, t) => RunsUserCode(s, i) && t !in p.slab && |p.slab| < MAX_TOKEN_NUM
    case Block(_) => p.pc.InWait?
    case Return(i) => RunsUserCode(s, i)
    case Panic(i) => RunsUserCode(s, i)
    case Trail(_) => p.pc.Executing? && p.pc.hdl in s.heap && s.heap[p.pc.hdl].returned
  }

  /** Coroutine::spawn_opts followed by the store into new_spawned. */
  function Create(s: Sys, i: nat, ptr: Ptr, stack: Stack): Sys
    requires i < |s.procs|
  {
    var p := s.procs[i];
    s.(procs := s.procs[i := p.(newSpawned := Some(ptr), pool := p.pool - {stack})],
       heap := s.heap[ptr := Coroutine(|s.births|, stack, false)],
       births := s.births + [ptr],
       stacks := s.stacks + {stack})
  }

  /** The end of the coroutine's function, followed by its yield. */
  function End(s: Sys, i: nat, r: YieldResult): Sys
    requires i < |s.procs| && RunsUserCode(s, i)
  {
    var h := s.procs[i].pc.hdl;
    s.(procs := s.procs[i := YieldWith(s.procs[i], h, r)],
       heap := s.heap[h := s.heap[h].(returned := true)])
  }

  /** One event touches the state of one processor only. */
  function Apply(s: Sys, e: Event): (s': Sys)
    requires Enabled(s, e)
    ensures |s'.procs| == |s.procs|
    ensures forall j :: 0 <= j < |s.procs| && j != e.i ==> s'.procs[j] == s.procs[j]
  {
    var i := e.i;
    var p := s.procs[i];
    match e
    case TopCount(_) =>
      s.(procs := s.procs[i := p.(pc := TopCounted)], workCount := s.workCount + 1)
    case TopCreate(_, ptr, stack) =>
      var s1 := Create(s, i, ptr, stack);
      s1.(procs := s1.procs[i := s1.procs[i].(pc := Outside)])
    case Start(_) => s.(procs := s.procs[i := p.(pc := Popping)])
    case Pop(_) =>
      if s.queue == [] then
        s.(procs := s.procs[i := p.(pc := CheckingSlab)])
      else
        s.(procs := s.procs[i := Resume(p, s.queue[0])], queue := s.queue[1..])
    case CheckSlab(_) =>
      s.(procs := s.procs[i := p.(pc := if |p.slab| != 0 then Polling else CheckingCount)])
    case Poll(_, batch) => s.(procs := s.procs[i := p.(pc := Dispatching(batch))])
    case PollError(_) => s.(procs := s.procs[i := p.(pc := Exited(false))])
    case CheckCount(_) =>
      s.(procs := s.procs[i := p.(pc := if s.workCount == 0 then Exited(true) else Draining)])
    case Dispatch(_) =>
      if p.pc.batch == [] then
        s.(procs := s.procs[i := p.(pc := Draining)])
      else
        var t, rest := p.pc.batch[0], p.pc.batch[1..];
        if t in p.slab then
          s.(procs := s.procs[i := p.(pc := Pushing(p.slab[t], Some(rest)), slab := p.slab - {t})])
        else
          s.(procs := s.procs[i := p.(pc := Dispatching(rest))])
    case Push(_) =>
      if |s.queue| < GLOBAL_QUEUE_SIZE then
        var next := match p.pc.rest case None => Draining case Some(rest) => Dispatching(rest);
        s.(procs := s.procs[i := p.(pc := next)], queue := s.queue + [p.pc.hdl])
      else
        s
    case Drain(_) =>
      (match p.newSpawned
       case None => s.(procs := s.procs[i := p.(pc := Popping)])
       case Some(c) => s.(procs := s.procs[i := Resume(p.(newSpawned := None), c)]))
    case Handle(_) =>
      var r := match p.lastResult case None => Ok(Suspended) case Some(r) => r;
      var p1 := p.(lastResult := None);
      (match r
       case Ok(Suspended) => s.(procs := s.procs[i := p1.(pc := Pushing(p.pc.hdl, None))])
       case Ok(Blocked) => s.(procs := s.procs[i := p1.(pc := Draining)])
       case _ => s.(procs := s.procs[i := p1.(pc := Freeing(p.pc.hdl))],
                    workCount := FetchSub(s.workCount)))
    case Free(_) =>
      var c := s.heap[p.pc.hdl];
      s.(procs := s.procs[i := p.(pc := Draining, pool := p.pool + {c.stack})],
         heap := s.heap - {p.pc.hdl},
         freed := s.freed + [c.id])
    case Sched(_) => s.(procs := s.procs[i := YieldWith(p, p.pc.hdl, Ok(Suspended))])
    case SpawnCount(_) =>
      s.(procs := s.procs[i := p.(pc := Counted(p.pc.hdl))], workCount := s.workCount + 1)
    case SpawnCreate(_, ptr, stack) =>
      var s1 := Create(s, i, ptr, stack);
      s1.(procs := s1.procs[i := YieldWith(s1.procs[i], p.pc.hdl, Ok(Suspended))])
    case WaitInsert(_, t) =>
      s.(procs := s.procs[i := p.(pc := InWait(p.pc.hdl, t), slab := p.slab[t := p.pc.hdl])])
    case RegisterFail(_, t) =>
      s.(procs := s.procs[i := p.(slab := p.slab[t := p.pc.hdl])])
    case Block(_) => s.(procs := s.procs[i := YieldWith(p, p.pc.hdl, Ok(Blocked))])
    case Return(_) => End(s, i, Ok(Finished))
    case Panic(_) => End(s, i, Panicking)
    case Trail(_) => s.(procs := s.procs[i := YieldWith(p, p.pc.hdl, Ok(Finished))])
  }

  predicate Creates(e: Event) {
    e.TopCreate? || e.SpawnCreate?
  }

  /** What no step may do if every coroutine is to keep its one owner: fail to register with
      the event loop, or store a new coroutine over one that is waiting in new_spawned. */
  predicate Harmless(s: Sys, e: Event)
    requires Enabled(s, e)
  {
    !e.RegisterFail? && (Creates(e) ==> s.procs[e.i].newSpawned.None?)
  }

  /** A run of anything that the code can do. */
  function RawExec(s: Sys, es: seq<Event>): Option<Sys> {
    if es == [] then Some(s) else
      match RawExec(s, es[..|es| - 1])
      case None => None
      case Some(m) => if Enabled(m, es[|es| - 1]) then Some(Apply(m, es[|es| - 1])) else None
  }

  lemma RawSnoc(s: Sys, es: seq<Event>, e: Event)
    requires RawExec(s, es).Some? && Enabled(RawExec(s, es).value, e)
    ensures RawExec(s, es + [e]) == Some(Apply(RawExec(s, es).value, e))
  {
    assert (es + [e])[..|es|] == es;
  }

  /** Every event of the run is harmless in the state in which it happens. */
  predicate HarmlessRun(s: Sys, es: seq<Event>)
    requires RawExec(s, es).Some?
  {
    es == [] ||
    var init := es[..|es| - 1];
    HarmlessRun(s, init) && Harmless(RawExec(s, init).value, es[|es| - 1])
  }

  /** How the scheduler is meant to be used: one coroutine is launched, before any thread
      schedules and while no work is counted, and registration succeeds. Ownership needs no
      more than Harmless; that a zero counter means the end for all threads needs this. */
  predicate Orderly(s: Sys, e: Event) {
    && (e.TopCount? ==> s.workCount == 0 && forall j :: 0 <= j < |s.procs| ==> s.procs[j].pc.Outside?)
    && !e.RegisterFail?
  }

  predicate Legal(s: Sys, e: Event) {
    Enabled(s, e) && Orderly(s, e)
  }

  /** The state after a run, or None when some event of it was not legal. */
  function Exec(s: Sys, es: seq<Event>): Option<Sys> {
    if es == [] then Some(s) else
      match Exec(s, es[..|es| - 1])
      case None => None
      case Some(m) =>
        var e := es[|es| - 1];
        if Legal(m, e) then Some(Apply(m, e)) else None
  }

  lemma ExecSnoc(s: Sys, es: seq<Event>, m: Sys, e: Event)
    requires Exec(s, es) == Some(m) && Legal(m, e)
    ensures Exec(s, es + [e]) == Some(Apply(m, e))
  {
    assert (es + [e])[..|es|] == es;
  }

  /** Field by field. */
  ghost predicate Same(s: Sys, t: Sys) {
    s.procs == t.procs && s.queue == t.queue && s.workCount == t.workCount && s.heap == t.heap &&
    s.births == t.births && s.freed == t.freed && s.stacks == t.stacks
  }

  /** Every prefix of a run is a run. */
  lemma {:induction false} PrefixRuns(s: Sys, es: seq<Event>, k: nat)
    requires k <= |es| && Exec(s, es).Some?
    ensures Exec(s, es[..k]).Some?
  {
    if k < |es| {
      var init := es[..|es| - 1];
      PrefixRuns(s, init, k);
      assert init[..k] == es[..k];
    } else {
      assert es[..k] == es;
    }
  }

  /** The k-th event of a run is legal in the state before it and leads to the one after. */
  lemma StepAt(s: Sys, es: seq<Event>, k: nat)
    requires k < |es| && Exec(s, es).Some?
    ensures Exec(s, es[..k]).Some? && Legal(Exec(s, es[..k]).value, es[k])
    ensures Exec(s, es[..k + 1]) == Some(Apply(Exec(s, es[..k]).value, es[k]))
  {
    PrefixRuns(s, es, k + 1);
    assert es[..k + 1][..k] == es[..k] && es[..k + 1][k] == es[k];
  }
}
