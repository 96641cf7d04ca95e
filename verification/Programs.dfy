/** Coroutines with code: the protocol driven by scripts which yield, spawn, wait for I/O
    and share one mutex-protected integer. The moves of the running coroutine are no longer
    arbitrary; everything else is still the protocol's own nondeterminism. */
module Programs {
  import opened Basics
  import opened Protocol

  const POISON_RETRY_COUNT: nat := 102400

  /** Lock and TryLock unwrap their result; Load and Store are the two halves of an update
      through the guard, with anything allowed in between; Throw panics. */
  datatype Action =
    | Yield | Spawn(body: seq<Action>) | Wait
    | Lock | TryLock | Unlock | Load | Store
    | Throw

  /** The continuation of a coroutine: script[..k] has been performed.
      - tries: failed attempts of the `lock` call at script[k];
      - guards: guards that were acquired and whose drop has not begun;
      - dropping: inside the loop of Guard::drop, after its first successful release or
        with a guard that came out of a PoisonError;
      - poisoned: a lock or try_lock has failed; unwinding: a panic is under way;
      - loaded: reg was loaded under the guard still held and not stored since;
      - ended: the function has returned or panicked. */
  datatype Ctx = Ctx(
    script: seq<Action>, k: nat, tries: nat, guards: nat, dropping: bool,
    poisoned: bool, unwinding: bool, reg: int, loaded: bool, ended: bool)

  function NewCtx(script: seq<Action>): Ctx {
    Ctx(script, 0, 0, 0, false, false, false, 0, false, false)
  }

  /** A launch, or an action performed by coroutine number id, which may have panicked. */
  datatype Entry = Root(script: seq<Action>) | Did(id: nat, action: Action, threw: bool)

  /** `ctxs` is indexed by birth number; `trace` records launches and performed actions. */
  datatype World = World(sys: Sys, ctxs: seq<Ctx>, locked: bool, data: int, trace: seq<Entry>)

  function Boot(n: nat, data: int): World {
    World(Init(n), [], false, data, [])
  }

  /** Kernel moves are the scheduler's; Launch creates the top-level coroutine; User is the
      next step of the coroutine that processor i runs, with the address, stack or token
      that the step may be given. */
  datatype Move =
    | Kernel(e: Event)
    | Launch(i: nat, ptr: Ptr, stack: Stack, script: seq<Action>)
    | User(i: nat, ptr: Ptr, stack: Stack, token: Token)

  predicate IsKernel(e: Event) {
    e.TopCount? || e.Start? || e.Pop? || e.CheckSlab? || e.Poll? || e.PollError? || e.CheckCount? ||
    e.Dispatch? || e.Push? || e.Drain? || e.Handle? || e.Free?
  }

  /** What one step of a coroutine does: its new continuation, whether script[k] has been
      performed, the protocol event it causes if any, and the mutex and its data. */
  datatype Step = Step(ctx: Ctx, done: bool, event: Option<Event>, locked: bool, data: int)

  /** What coroutine number id performs by going from continuation c to c'. */
  function Deed(id: nat, c: Ctx, c': Ctx): Entry
    requires c.k < |c.script|
  {
    Did(id, c.script[c.k], c'.unwinding && !c.unwinding)
  }

  /** One compare_and_swap(true, false) at the start of dropping an acquired guard. */
  function BeginDrop(c: Ctx, done: bool, locked: bool, data: int): Step
    requires c.guards > 0
  {
    Step(c.(guards := c.guards - 1, loaded := false, dropping := locked), done, None, false, data)
  }

  function Acquire(c: Ctx, data: int): Step {
    Step(c.(k := c.k + 1, tries := 0, guards := c.guards + 1, loaded := false), true, None, true, data)
  }

  /** unwrap() of Err(PoisonError): a panic that drops the guard inside the error. */
  function Poison(c: Ctx, locked: bool, data: int): Step {
    Step(c.(k := c.k + 1, tries := 0, poisoned := true, unwinding := true, dropping := true), true, None, locked, data)
  }

  function Behave(c: Ctx, p: Proc, locked: bool, data: int, m: Move): Step
    requires m.User? && c.k <= |c.script|
  {
    var i := m.i;
    if p.pc.Counted? then
      Step(c.(k := c.k + 1), true, Some(SpawnCreate(i, m.ptr, m.stack)), locked, data)
    else if p.pc.InWait? then
      Step(c, false, Some(Block(i)), locked, data)
    else if c.dropping then
      Step(c.(dropping := locked), false, None, false, data)
    else if c.unwinding then
      if c.guards > 0 then BeginDrop(c, false, locked, data)
      else Step(c.(ended := true), false, Some(Panic(i)), locked, data)
    else if c.k == |c.script| then
      if c.guards > 0 then BeginDrop(c, false, locked, data)
      else Step(c.(ended := true), false, Some(Return(i)), locked, data)
    else
      var next := c.(k := c.k + 1);
      match c.script[c.k]
      case Yield => Step(next, true, Some(Sched(i)), locked, data)
      case Spawn(_) => Step(c, false, Some(SpawnCount(i)), locked, data)
      case Wait =>
        if |p.slab| < MAX_TOKEN_NUM then Step(next, true, Some(WaitInsert(i, m.token)), locked, data)
        else Step(next.(unwinding := true), true, None, locked, data)
      case Lock =>
        if c.tries == POISON_RETRY_COUNT then Poison(c, locked, data)
        else if !locked then Acquire(c, data)
        else Step(c.(tries := c.tries + 1), false, Some(Sched(i)), locked, data)
      case TryLock => if !locked then Acquire(c, data) else Poison(c, locked, data)
      case Unlock =>
        if c.guards > 0 then BeginDrop(next, true, locked, data) else Step(next, true, None, locked, data)
      case Load => Step(next.(reg := data, loaded := c.guards > 0), true, None, locked, data)
      case Store => Step(next.(loaded := false), true, None, locked, c.reg + 1)
      case Throw => Step(next.(unwinding := true), true, None, locked, data)
  }

  /** Processor i is in the code of a coroutine, whose birth number is RunId. */
  predicate InUser(w: World, i: nat) {
    i < |w.sys.procs| &&
    var pc := w.sys.procs[i].pc;
    (pc.Executing? || pc.Counted? || pc.InWait?) && pc.hdl in w.sys.heap &&
    !w.sys.heap[pc.hdl].returned && w.sys.heap[pc.hdl].id < |w.ctxs| &&
    var c := w.ctxs[w.sys.heap[pc.hdl].id];
    c.k <= |c.script| && (pc.Counted? ==> c.k < |c.script| && c.script[c.k].Spawn?)
  }

  function RunId(w: World, i: nat): nat
    requires InUser(w, i)
  {
    w.sys.heap[w.sys.procs[i].pc.hdl].id
  }

  function StepOf(w: World, m: Move): Step
    requires m.User? && InUser(w, m.i)
  {
    Behave(w.ctxs[RunId(w, m.i)], w.sys.procs[m.i], w.locked, w.data, m)
  }

  /** The protocol event behind a move. */
  function EventOf(w: World, m: Move): Option<Event>
    requires m.User? ==> InUser(w, m.i)
  {
    match m
    case Kernel(e) => Some(e)
    case Launch(i, ptr, stack, _) => Some(TopCreate(i, ptr, stack))
    case User(_, _, _, _) => StepOf(w, m).event
  }

  predicate CanMove(w: World, m: Move) {
    && (m.Kernel? ==> IsKernel(m.e))
    && (m.User? ==> InUser(w, m.i))
    && (EventOf(w, m).Some? ==> Legal(w.sys, EventOf(w, m).value))
  }

  function SysAfter(w: World, m: Move): Sys
    requires CanMove(w, m)
  {
    if EventOf(w, m).Some? then Apply(w.sys, EventOf(w, m).value) else w.sys
  }

  /** The script that starts life with a move. */
  function Newborn(w: World, m: Move): seq<Ctx>
    requires CanMove(w, m)
  {
    match m
    case Kernel(_) => []
    case Launch(_, _, _, script) => [NewCtx(script)]
    case User(i, _, _, _) =>
      if w.sys.procs[i].pc.Counted? then
        var c := w.ctxs[RunId(w, i)];
        [NewCtx(c.script[c.k].body)]
      else []
  }

  function Perform(w: World, m: Move): World
    requires CanMove(w, m)
  {
    match m
    case Kernel(_) => w.(sys := SysAfter(w, m))
    case Launch(_, _, _, script) =>
      w.(sys := SysAfter(w, m), ctxs := w.ctxs + [NewCtx(script)], trace := w.trace + [Root(script)])
    case User(i, _, _, _) =>
      var id, st := RunId(w, i), StepOf(w, m);
      var c := w.ctxs[id];
      World(SysAfter(w, m), w.ctxs[id := st.ctx] + Newborn(w, m), st.locked, st.data,
            w.trace + if st.done && c.k < |c.script| then [Deed(id, c, st.ctx)] else [])
  }

  function Play(w: World, ms: seq<Move>): Option<World> {
    if ms == [] then Some(w) else
      match Play(w, ms[..|ms| - 1])
      case None => None
      case Some(v) => if CanMove(v, ms[|ms| - 1]) then Some(Perform(v, ms[|ms| - 1])) else None
  }

  /** The protocol events behind a run of scripts. */
  function EventsOf(w: World, ms: seq<Move>): seq<Event>
    requires Play(w, ms).Some?
  {
    if ms == [] then [] else
      var init := ms[..|ms| - 1];
      var e := EventOf(Play(w, init).value, ms[|ms| - 1]);
      EventsOf(w, init) + if e.Some? then [e.value] else []
  }

  /** A move without a protocol event leaves the protocol's state alone. */
  lemma PerformRefines(w: World, m: Move)
    requires CanMove(w, m)
    ensures var e := EventOf(w, m); Perform(w, m).sys == if e.Some? then Apply(w.sys, e.value) else w.sys
  {
  }

  lemma EventsOfSnoc(w: World, ms: seq<Move>)
    requires Play(w, ms).Some? && ms != []
    ensures var init := ms[..|ms| - 1]; var e := EventOf(Play(w, init).value, ms[|ms| - 1]);
      EventsOf(w, ms) == EventsOf(w, init) + if e.Some? then [e.value] else []
  {
  }

  /** A run of scripts is a run of the protocol, so all that holds of the protocol holds
      of it. */
  lemma {:induction false} PlayRefines(w: World, ms: seq<Move>)
    requires Play(w, ms).Some?
    ensures Exec(w.sys, EventsOf(w, ms)) == Some(Play(w, ms).value.sys)
  {
    if ms != [] {
      var init, m := ms[..|ms| - 1], ms[|ms| - 1];
      PlayRefines(w, init);
      EventsOfSnoc(w, ms);
      var v, es := Play(w, init).value, EventsOf(w, init);
      PerformRefines(v, m);
      var e := EventOf(v, m);
      if e.Some? {
        ExecSnoc(w.sys, es, v.sys, e.value);
      } else {
        assert es + [] == es;
      }
    }
  }

  lemma {:induction false} PlayPrefix(w: World, ms: seq<Move>, k: nat)
    requires k <= |ms| && Play(w, ms).Some?
    ensures Play(w, ms[..k]).Some?
  {
    if k < |ms| {
      var init := ms[..|ms| - 1];
      PlayPrefix(w, init, k);
      assert init[..k] == ms[..k];
    } else {
      assert ms[..k] == ms;
    }
  }

  lemma PlaySnoc(w: World, ms: seq<Move>, v: World, m: Move)
    requires Play(w, ms) == Some(v) && CanMove(v, m)
    ensures Play(w, ms + [m]) == Some(Perform(v, m))
  {
    assert (ms + [m])[..|ms|] == ms;
  }
}
