/** The work left on one processor: a measure that no move increases and that every step of
    a coroutine, every resumption and every wake-up decreases. */
module Work {
  import opened Basics
  import opened Protocol
  import opened Ownership
  import opened Invariant
  import opened Programs
  import opened Traces

  const RETRIES: nat := 5 * POISON_RETRY_COUNT

  /** What a script can still cost. A lock call may spin to exhaustion, and a spawned
      script costs as much as its child will. */
  function ScriptWork(script: seq<Action>): nat
    decreases script
  {
    if script == [] then 0 else
      10 +
      (match script[0]
       case Lock => RETRIES
       case TryLock => RETRIES
       case Spawn(body) => 2 + RETRIES + ScriptWork(body)
       case _ => 0) +
      ScriptWork(script[1..])
  }

  predicate Counts(c: Ctx) {
    c.k <= |c.script| && c.tries <= POISON_RETRY_COUNT
  }

  function CtxWork(c: Ctx): nat
    requires Counts(c)
  {
    if c.ended then 0 else
      2 + 3 * c.guards + (if c.dropping then 2 else 0) +
      if c.unwinding then 0 else ScriptWork(c.script[c.k..]) + 5 * (POISON_RETRY_COUNT - c.tries)
  }

  ghost predicate AllCount(ctxs: seq<Ctx>) {
    forall id :: 0 <= id < |ctxs| ==> Counts(ctxs[id])
  }

  ghost function CtxWorks(ctxs: seq<Ctx>): seq<int>
    requires AllCount(ctxs)
  {
    seq(|ctxs|, id requires 0 <= id < |ctxs| => CtxWork(ctxs[id]))
  }

  /** What a processor may still have to do for the coroutine at hand, besides its code. */
  function PcLoad(p: Proc): nat {
    if p.pc.Executing? || p.pc.InWait? then 1
    else if p.pc.Counted? || HandOf(p).None? then 0
    else 2
  }

  /** What the places of a processor weigh. */
  function ProcLoad(p: Proc): nat {
    3 * |p.slab| + (if p.newSpawned.Some? then 2 else 0) + PcLoad(p)
  }

  function Loads(procs: seq<Proc>): seq<int> {
    seq(|procs|, i requires 0 <= i < |procs| => ProcLoad(procs[i]))
  }

  ghost function Load(s: Sys): nat {
    SumNonNegative(Loads(s.procs));
    2 * |s.queue| + Sum(Loads(s.procs))
  }

  lemma {:induction false} SumNonNegative(xs: seq<int>)
    requires forall k :: 0 <= k < |xs| ==> xs[k] >= 0
    ensures Sum(xs) >= 0
  {
    if xs != [] {
      SumNonNegative(xs[..|xs| - 1]);
    }
  }

  ghost function WorkLeft(w: World): nat
    requires AllCount(w.ctxs)
  {
    SumNonNegative(CtxWorks(w.ctxs));
    Sum(CtxWorks(w.ctxs)) + (if w.locked then 1 else 0) + Load(w.sys)
  }

  /** The work a step saves on its own coroutine, the flag included. */
  function StepWork(c: Ctx, locked: bool): nat
    requires Counts(c)
  {
    CtxWork(c) + if locked then 1 else 0
  }

  lemma ScriptWorkHead(script: seq<Action>, k: nat)
    requires k < |script|
    ensures ScriptWork(script[k..]) == 10 + ScriptWork(script[k + 1..]) +
      (match script[k]
       case Lock => RETRIES
       case TryLock => RETRIES
       case Spawn(body) => 2 + RETRIES + ScriptWork(body)
       case _ => 0)
  {
    assert script[k..][0] == script[k] && script[k..][1..] == script[k + 1..];
  }

  /** What a step's protocol event adds to the load of its processor. */
  function EventLoad(e: Option<Event>): int {
    match e
    case None => 0
    case Some(e) =>
      match e
      case Sched(_) => 1
      case SpawnCount(_) => -1
      case SpawnCreate(_, _, _) => 4
      case WaitInsert(_, _) => 3
      case Block(_) => -1
      case Return(_) => 1
      case Panic(_) => 1
      case _ => 0
  }

  /** A step leaves less work of its coroutine, the flag, the child it bears and the load
      of its processor taken together. */
  ghost predicate Saves(c: Ctx, locked: bool, st: Step, children: seq<Ctx>) {
    && Counts(c) && Counts(st.ctx) && |children| <= 1 && AllCount(children)
    && StepWork(st.ctx, st.locked) + (if children == [] then 0 else CtxWork(children[0])) + EventLoad(st.event)
        < StepWork(c, locked)
  }

  lemma BirthSaves(c: Ctx, p: Proc, locked: bool, data: int, m: Move)
    requires m.User? && Counts(c) && !c.ended && p.pc.Counted? && AtSpawn(c)
    ensures Saves(c, locked, Behave(c, p, locked, data, m), [NewCtx(c.script[c.k].body)])
  {
    hide ScriptWork;
    ScriptWorkHead(c.script, c.k);
    assert c.script[c.k].body[0..] == c.script[c.k].body;
  }

  lemma FlagSaves(c: Ctx, p: Proc, locked: bool, data: int, m: Move)
    requires m.User? && Counts(c) && !c.ended && Acting(c, p)
    requires c.script[c.k].Lock? || c.script[c.k].TryLock? || c.script[c.k].Unlock?
    ensures Saves(c, locked, Behave(c, p, locked, data, m), [])
  {
    hide ScriptWork;
    ScriptWorkHead(c.script, c.k);
  }

  lemma PlainSaves(c: Ctx, p: Proc, locked: bool, data: int, m: Move)
    requires m.User? && Counts(c) && !c.ended && Acting(c, p)
    requires !c.script[c.k].Lock? && !c.script[c.k].TryLock? && !c.script[c.k].Unlock?
    ensures Saves(c, locked, Behave(c, p, locked, data, m), [])
  {
    hide ScriptWork;
    ScriptWorkHead(c.script, c.k);
  }

  lemma EndSaves(c: Ctx, p: Proc, locked: bool, data: int, m: Move)
    requires m.User? && Counts(c) && !c.ended && !Acting(c, p) && !p.pc.Counted?
    ensures Saves(c, locked, Behave(c, p, locked, data, m), [])
  {
  }

  /** Every step of a coroutine saves work. */
  lemma StepSaves(c: Ctx, p: Proc, locked: bool, data: int, m: Move)
    requires m.User? && Counts(c) && !c.ended && (p.pc.Counted? ==> AtSpawn(c))
    ensures Saves(c, locked, Behave(c, p, locked, data, m), if p.pc.Counted? then [NewCtx(c.script[c.k].body)] else [])
  {
    if p.pc.Counted? {
      BirthSaves(c, p, locked, data, m);
    } else if !Acting(c, p) {
      EndSaves(c, p, locked, data, m);
    } else if c.script[c.k].Lock? || c.script[c.k].TryLock? || c.script[c.k].Unlock? {
      FlagSaves(c, p, locked, data, m);
    } else {
      PlainSaves(c, p, locked, data, m);
    }
  }

  /** A change of one processor changes the load by what it changes there. */
  lemma LoadUpdate(s: Sys, s': Sys, i: nat)
    requires i < |s.procs| == |s'.procs| && forall j :: 0 <= j < |s.procs| && j != i ==> s'.procs[j] == s.procs[j]
    ensures Load(s') - Load(s) == 2 * |s'.queue| - 2 * |s.queue| + ProcLoad(s'.procs[i]) - ProcLoad(s.procs[i])
  {
    assert Loads(s'.procs) == Loads(s.procs)[i := ProcLoad(s'.procs[i])];
    SumUpdate(Loads(s.procs), i, ProcLoad(s'.procs[i]));
  }

  lemma UserEffect(s: Sys, e: Event)
    requires Legal(s, e) && InCode(e) && Control(s.procs[e.i], s.heap)
    ensures var s' := Apply(s, e);
      s'.queue == s.queue && ProcLoad(s'.procs[e.i]) == ProcLoad(s.procs[e.i]) + EventLoad(Some(e))
  {
    if e.SpawnCreate? || Ends(e) {
      BirthEndEffect(s, e);
    }
  }

  lemma BirthEndEffect(s: Sys, e: Event)
    requires Legal(s, e) && (e.SpawnCreate? || Ends(e)) && Control(s.procs[e.i], s.heap)
    ensures var s' := Apply(s, e);
      s'.queue == s.queue && ProcLoad(s'.procs[e.i]) == ProcLoad(s.procs[e.i]) + EventLoad(Some(e))
  {
  }

  lemma LoadAfter(s: Sys, e: Option<Event>)
    requires e.Some? ==> Legal(s, e.value) && InCode(e.value) && Control(s.procs[e.value.i], s.heap)
    ensures Load(if e.Some? then Apply(s, e.value) else s) == Load(s) + EventLoad(e)
  {
    if e.Some? {
      UserEffect(s, e.value);
      LoadUpdate(s, Apply(s, e.value), e.value.i);
    }
  }

  lemma WorksUpdate(ctxs: seq<Ctx>, id: nat, c: Ctx)
    requires AllCount(ctxs) && id < |ctxs| && Counts(c)
    ensures AllCount(ctxs[id := c])
    ensures Sum(CtxWorks(ctxs[id := c])) == Sum(CtxWorks(ctxs)) - CtxWork(ctxs[id]) + CtxWork(c)
  {
    assert CtxWorks(ctxs[id := c]) == CtxWorks(ctxs)[id := CtxWork(c)];
    SumUpdate(CtxWorks(ctxs), id, CtxWork(c));
  }

  lemma WorksSnoc(ctxs: seq<Ctx>, c: Ctx)
    requires AllCount(ctxs) && Counts(c)
    ensures AllCount(ctxs + [c]) && Sum(CtxWorks(ctxs + [c])) == Sum(CtxWorks(ctxs)) + CtxWork(c)
  {
    assert CtxWorks(ctxs + [c])[..|ctxs|] == CtxWorks(ctxs);
  }

  lemma WorksAfter(ctxs: seq<Ctx>, id: nat, c: Ctx, children: seq<Ctx>)
    requires AllCount(ctxs) && id < |ctxs| && Counts(c) && |children| <= 1 && AllCount(children)
    ensures var ctxs' := ctxs[id := c] + children;
      AllCount(ctxs') &&
      Sum(CtxWorks(ctxs')) == Sum(CtxWorks(ctxs)) - CtxWork(ctxs[id]) + CtxWork(c)
        + if children == [] then 0 else CtxWork(children[0])
  {
    WorksUpdate(ctxs, id, c);
    if children == [] {
      assert ctxs[id := c] + children == ctxs[id := c];
    } else {
      assert children == [children[0]];
      WorksSnoc(ctxs[id := c], children[0]);
    }
  }

  lemma UserSaves(w: World, m: Move)
    requires CanMove(w, m) && m.User? && Shaped(w) && AllCount(w.ctxs)
    requires Registered(w.sys) && Control(w.sys.procs[m.i], w.sys.heap)
    ensures AllCount(Perform(w, m).ctxs) && WorkLeft(Perform(w, m)) < WorkLeft(w)
  {
    RunnerReady(w, m.i);
    ReadySaves(w, m);
  }

  lemma RunnerReady(w: World, i: nat)
    requires Registered(w.sys) && Shaped(w) && InUser(w, i)
    ensures var c := w.ctxs[RunId(w, i)]; Sound(c) && !c.ended && (w.sys.procs[i].pc.Counted? ==> AtSpawn(c))
  {
    RunnerNotOver(w, i);
  }

  lemma ReadySaves(w: World, m: Move)
    requires CanMove(w, m) && m.User? && AllCount(w.ctxs) && Control(w.sys.procs[m.i], w.sys.heap)
    requires var c := w.ctxs[RunId(w, m.i)]; Sound(c) && !c.ended && (w.sys.procs[m.i].pc.Counted? ==> AtSpawn(c))
    ensures AllCount(Perform(w, m).ctxs) && WorkLeft(Perform(w, m)) < WorkLeft(w)
  {
    hide Behave;
    var id, st, p := RunId(w, m.i), StepOf(w, m), w.sys.procs[m.i];
    BehaveEvents(w.ctxs[id], p, w.locked, w.data, m);
    StepSaves(w.ctxs[id], p, w.locked, w.data, m);
    UserPerforms(w, m);
    SavesInAll(w, id, st, Newborn(w, m), Perform(w, m));
  }

  /** A step of a coroutine, part by part. */
  lemma UserPerforms(w: World, m: Move)
    requires CanMove(w, m) && m.User?
    ensures var v, id, st := Perform(w, m), RunId(w, m.i), StepOf(w, m); var c := w.ctxs[id];
      var children := if w.sys.procs[m.i].pc.Counted? then [NewCtx(c.script[c.k].body)] else [];
      && Newborn(w, m) == children && v.ctxs == w.ctxs[id := st.ctx] + children && v.locked == st.locked
      && (st.event.Some? ==> Legal(w.sys, st.event.value))
      && v.sys == if st.event.Some? then Apply(w.sys, st.event.value) else w.sys
  {
  }

  /** The work that a step saves on its own coroutine is saved altogether. */
  lemma SavesInAll(w: World, id: nat, st: Step, children: seq<Ctx>, v: World)
    requires AllCount(w.ctxs) && id < |w.ctxs|
    requires st.event.Some? ==>
      Legal(w.sys, st.event.value) && InCode(st.event.value) && Control(w.sys.procs[st.event.value.i], w.sys.heap)
    requires v.sys == (if st.event.Some? then Apply(w.sys, st.event.value) else w.sys) && v.locked == st.locked
    requires v.ctxs == w.ctxs[id := st.ctx] + children && Saves(w.ctxs[id], w.locked, st, children)
    ensures AllCount(v.ctxs) && WorkLeft(v) < WorkLeft(w)
  {
    WorksAfter(w.ctxs, id, st.ctx, children);
    LoadAfter(w.sys, st.event);
  }

  /** Moves of the scheduler that resume, wake or drop a coroutine. */
  predicate Advances(s: Sys, e: Event)
    requires Enabled(s, e)
  {
    var p := s.procs[e.i];
    match e
    case Pop(_) => s.queue != []
    case Drain(_) => p.newSpawned.Some?
    case Dispatch(_) => p.pc.batch != [] && p.pc.batch[0] in p.slab
    case Free(_) => true
    case _ => false
  }

  lemma KernelEffect(s: Sys, e: Event)
    requires Legal(s, e) && IsKernel(e) && !e.Dispatch? && Control(s.procs[e.i], s.heap)
    ensures var s' := Apply(s, e);
      2 * |s'.queue| + ProcLoad(s'.procs[e.i]) + (if Advances(s, e) then 1 else 0)
        <= 2 * |s.queue| + ProcLoad(s.procs[e.i])
  {
  }

  lemma DispatchLoad(s: Sys, i: nat)
    requires Legal(s, Dispatch(i)) && Control(s.procs[i], s.heap)
    ensures var s' := Apply(s, Dispatch(i));
      s'.queue == s.queue && ProcLoad(s'.procs[i]) + (if Advances(s, Dispatch(i)) then 1 else 0) <= ProcLoad(s.procs[i])
  {
    var p := s.procs[i];
    if Advances(s, Dispatch(i)) {
      var t := p.pc.batch[0];
      assert p.slab == (p.slab - {t})[t := p.slab[t]];
    }
  }

  lemma KernelSaves(w: World, e: Event)
    requires CanMove(w, Kernel(e)) && AllCount(w.ctxs) && Control(w.sys.procs[e.i], w.sys.heap)
    ensures AllCount(Perform(w, Kernel(e)).ctxs)
    ensures WorkLeft(Perform(w, Kernel(e))) + (if Advances(w.sys, e) then 1 else 0) <= WorkLeft(w)
  {
    if e.Dispatch? {
      DispatchLoad(w.sys, e.i);
    } else {
      KernelEffect(w.sys, e);
    }
    LoadUpdate(w.sys, Apply(w.sys, e), e.i);
  }

  /** What a launch brings: the work of its script and of taking the coroutine from its slot. */
  function LaunchWork(script: seq<Action>): nat {
    CtxWork(NewCtx(script)) + 2
  }

  lemma LaunchAdds(w: World, m: Move)
    requires CanMove(w, m) && m.Launch? && AllCount(w.ctxs) && Control(w.sys.procs[m.i], w.sys.heap)
    ensures AllCount(Perform(w, m).ctxs) && WorkLeft(Perform(w, m)) <= WorkLeft(w) + LaunchWork(m.script)
  {
    WorksSnoc(w.ctxs, NewCtx(m.script));
    LoadUpdate(w.sys, Perform(w, m).sys, m.i);
  }

  // ---- whole runs, on any number of processors ------------------------------------------

  /** A step of a coroutine, or a move of the scheduler that resumes, wakes or drops one. */
  predicate Works(w: World, m: Move)
    requires CanMove(w, m)
  {
    m.User? || (m.Kernel? && Advances(w.sys, m.e))
  }

  function WorkDone(w: World, ms: seq<Move>): nat
    requires Play(w, ms).Some?
  {
    if ms == [] then 0 else
      var init := ms[..|ms| - 1];
      WorkDone(w, init) + if Works(Play(w, init).value, ms[|ms| - 1]) then 1 else 0
  }

  function WorkLaunched(ms: seq<Move>): nat {
    if ms == [] then 0 else
      var m := ms[|ms| - 1];
      WorkLaunched(ms[..|ms| - 1]) + if m.Launch? then LaunchWork(m.script) else 0
  }

  lemma MoveSaves(w: World, m: Move)
    requires Good(w) && CanMove(w, m) && AllCount(w.ctxs)
    ensures AllCount(Perform(w, m).ctxs)
    ensures WorkLeft(Perform(w, m)) + (if Works(w, m) then 1 else 0)
      <= WorkLeft(w) + if m.Launch? then LaunchWork(m.script) else 0
  {
    var pl :| Inv(w.sys, pl);
    assert Registered(w.sys);
    match m
    case Kernel(e) =>
      assert Control(w.sys.procs[e.i], w.sys.heap);
      KernelSaves(w, e);
    case Launch(i, _, _, _) =>
      assert Control(w.sys.procs[i], w.sys.heap);
      LaunchAdds(w, m);
    case User(i, _, _, _) =>
      assert Control(w.sys.procs[i], w.sys.heap);
      UserSaves(w, m);
  }

  lemma BootIsIdle(n: nat, data: int)
    ensures AllCount(Boot(n, data).ctxs) && WorkLeft(Boot(n, data)) == 0
  {
    SumZeros(Loads(Init(n).procs));
  }

  /** The work of a run is bounded by the scripts that were launched, for any number of
      processors, any interleaving, any events and without assuming fairness: every run has
      only finitely many steps of coroutines, resumptions, wake-ups and drops, stolen locks
      included. All else a run can do is look for work in vain. */
  lemma {:induction false} WorkIsBounded(n: nat, data: int, ms: seq<Move>, w: World)
    requires Play(Boot(n, data), ms) == Some(w)
    ensures AllCount(w.ctxs) && WorkDone(Boot(n, data), ms) + WorkLeft(w) <= WorkLaunched(ms)
  {
    if ms == [] {
      BootIsIdle(n, data);
    } else {
      var init, m := ms[..|ms| - 1], ms[|ms| - 1];
      var v := Play(Boot(n, data), init).value;
      WorkIsBounded(n, data, init, v);
      PlayGood(n, data, init);
      MoveSaves(v, m);
    }
  }
}
