/** The program of test_mutex on two processors: two coroutines with two increments each.
    On one thread its total is always four (Runtime.CounterProgram); here is a run of two
    threads in which both return, nobody fails to lock or panics, and the total is three. */
module LostUpdate {
  import opened Basics
  import opened Protocol
  import opened Programs
  import opened MutexLaws
  import opened MutexRaces
  import opened Endings

  const BODY: seq<Action> := ROUND + ROUND
  const MAIN: seq<Action> := [Spawn(BODY), Spawn(BODY)]

  /** Some run of two processors that has launched MAIN, and nothing else, leads to this
      state. */
  ghost predicate Seen(s: Sys, ctxs: seq<Ctx>, locked: bool, data: int) {
    exists ms, trace :: Leads(ms, trace, s, ctxs, locked, data)
  }

  ghost predicate Leads(ms: seq<Move>, trace: seq<Entry>, s: Sys, ctxs: seq<Ctx>, locked: bool, data: int) {
    && Play(Boot(2, 0), ms) == Some(World(s, ctxs, locked, data, trace))
    && LaunchesDisciplined(ms) && StoresLaunched(trace) == StoresIn(MAIN)
  }

  /** One more move of a run, other than a launch. */
  lemma SeenMove(w: World, m: Move, v: World)
    requires Seen(w.sys, w.ctxs, w.locked, w.data)
    requires forall trace :: CanMove(w.(trace := trace), m)
    requires forall trace :: Perform(w.(trace := trace), m).(trace := []) == v.(trace := [])
    requires !m.Launch?
    ensures Seen(v.sys, v.ctxs, v.locked, v.data)
  {
    hide Perform, CanMove, Play;
    var ms, trace :| Leads(ms, trace, w.sys, w.ctxs, w.locked, w.data);
    var w' := w.(trace := trace);
    PlaySnoc(Boot(2, 0), ms, w', m);
    LaunchesKept(w', m);
    assert Leads(ms + [m], Perform(w', m).trace, v.sys, v.ctxs, v.locked, v.data);
  }

  lemma LaunchesKept(w: World, m: Move)
    requires CanMove(w, m) && !m.Launch?
    ensures StoresLaunched(Perform(w, m).trace) == StoresLaunched(w.trace)
  {
    hide Behave, Apply;
    if m.User? && Perform(w, m).trace != w.trace {
      LaunchedSnoc(w.trace, Deed(RunId(w, m.i), w.ctxs[RunId(w, m.i)], StepOf(w, m).ctx));
    }
  }

  lemma SeenKernel(s: Sys, ctxs: seq<Ctx>, locked: bool, data: int, e: Event, s': Sys)
    requires Seen(s, ctxs, locked, data) && IsKernel(e) && Legal(s, e) && Same(Apply(s, e), s')
    ensures Seen(s', ctxs, locked, data)
  {
    hide Seen, Apply;
    assert Apply(s, e) == s';
    SeenMove(World(s, ctxs, locked, data, []), Kernel(e), World(s', ctxs, locked, data, []));
  }

  /** Processor i executes coroutine number id, which is live. */
  predicate Runs(s: Sys, ctxs: seq<Ctx>, i: nat, id: nat) {
    && i < |s.procs| && s.procs[i].pc.Executing? && s.procs[i].pc.hdl in s.heap
    && s.heap[s.procs[i].pc.hdl].id == id && !s.heap[s.procs[i].pc.hdl].returned
    && id < |ctxs| && ctxs[id].k <= |ctxs[id].script|
  }

  /** A step of its code that is no event. */
  lemma SeenLocal(s: Sys, ctxs: seq<Ctx>, locked: bool, data: int, i: nat, id: nat, st: Step)
    requires Seen(s, ctxs, locked, data) && Runs(s, ctxs, i, id)
    requires Behave(ctxs[id], s.procs[i], locked, data, User(i, 0, 0, 0)) == st && st.event.None?
    ensures Seen(s, ctxs[id := st.ctx], st.locked, st.data)
  {
    hide Seen, Behave;
    assert ctxs[id := st.ctx] + [] == ctxs[id := st.ctx];
    SeenMove(World(s, ctxs, locked, data, []), User(i, 0, 0, 0), World(s, ctxs[id := st.ctx], st.locked, st.data, []));
  }

  /** ... and one that is an event. */
  lemma SeenEvent(s: Sys, ctxs: seq<Ctx>, locked: bool, data: int, i: nat, id: nat, st: Step, s': Sys)
    requires Seen(s, ctxs, locked, data) && Runs(s, ctxs, i, id)
    requires Behave(ctxs[id], s.procs[i], locked, data, User(i, 0, 0, 0)) == st && st.event.Some?
    requires Legal(s, st.event.value) && Same(Apply(s, st.event.value), s')
    ensures Seen(s', ctxs[id := st.ctx], st.locked, st.data)
  {
    hide Seen, Behave, Apply;
    assert Apply(s, st.event.value) == s';
    assert ctxs[id := st.ctx] + [] == ctxs[id := st.ctx];
    SeenMove(World(s, ctxs, locked, data, []), User(i, 0, 0, 0), World(s', ctxs[id := st.ctx], st.locked, st.data, []));
  }

  /** A counted child is born. */
  lemma SeenBirth(s: Sys, ctxs: seq<Ctx>, locked: bool, data: int, i: nat, id: nat, ptr: Ptr, stack: Stack, s': Sys)
    requires Seen(s, ctxs, locked, data) && id < |ctxs| && ctxs[id].k < |ctxs[id].script| &&
      ctxs[id].script[ctxs[id].k].Spawn?
    requires i < |s.procs| && s.procs[i].pc.Counted? && s.procs[i].pc.hdl in s.heap
    requires s.heap[s.procs[i].pc.hdl].id == id && !s.heap[s.procs[i].pc.hdl].returned
    requires Legal(s, SpawnCreate(i, ptr, stack)) && Same(Apply(s, SpawnCreate(i, ptr, stack)), s')
    ensures var c := ctxs[id];
      Seen(s', ctxs[id := c.(k := c.k + 1)] + [NewCtx(c.script[c.k].body)], locked, data)
  {
    hide Seen, Apply;
    var c := ctxs[id];
    assert Apply(s, SpawnCreate(i, ptr, stack)) == s';
    SeenMove(World(s, ctxs, locked, data, []), User(i, ptr, stack, 0),
             World(s', ctxs[id := c.(k := c.k + 1)] + [NewCtx(c.script[c.k].body)], locked, data, []));
  }

  lemma {:induction false} SeenKernels(s: Sys, ctxs: seq<Ctx>, locked: bool, data: int, es: seq<Event>)
    requires Seen(s, ctxs, locked, data) && Exec(s, es).Some? && forall k :: 0 <= k < |es| ==> IsKernel(es[k])
    ensures Seen(Exec(s, es).value, ctxs, locked, data)
  {
    hide Seen, Apply, Legal;
    if es != [] {
      var init := es[..|es| - 1];
      SeenKernels(s, ctxs, locked, data, init);
      SeenKernel(Exec(s, init).value, ctxs, locked, data, es[|es| - 1], Exec(s, es).value);
    }
  }

  // ---- both children run ------------------------------------------------------------------

  lemma MainIsCounter()
    ensures MAIN == Counter(2, 2)
  {
    assert Repeat(ROUND, 1) == ROUND + Repeat(ROUND, 0) == ROUND;
    assert Repeat(ROUND, 2) == ROUND + Repeat(ROUND, 1) == BODY;
    assert Repeat([Spawn(BODY)], 1) == [Spawn(BODY)] + Repeat([Spawn(BODY)], 0) == [Spawn(BODY)];
    assert Repeat([Spawn(BODY)], 2) == [Spawn(BODY)] + Repeat([Spawn(BODY)], 1);
  }

  /** The main coroutine after k spawns. */
  function Main(k: nat): Ctx {
    NewCtx(MAIN).(k := k)
  }

  lemma MainIsLaunched()
    ensures Seen(Early(Outside, None, Some(100)), [Main(0)], false, 0)
  {
    MainIsCounter();
    CounterTotal(2, 2);
    var ms := Launched(MAIN);
    FirstEntry(MAIN);
    assert Main(0) == NewCtx(MAIN);
    assert Leads(ms, [Root(MAIN)], Early(Outside, None, Some(100)), [Main(0)], false, 0);
  }

  lemma FirstEntry(script: seq<Action>)
    ensures StoresLaunched([Root(script)]) == StoresIn(script)
  {
    LaunchedSnoc([], Root(script));
    assert [] + [Root(script)] == [Root(script)];
  }

  lemma MainCounts()
    ensures Seen(COUNTED, [Main(0)], false, 0)
  {
    hide Seen;
    MainIsLaunched();
    var es := FirstStarts();
    SeenKernels(Early(Outside, None, Some(100)), [Main(0)], false, 0, es);
    SeenEvent(Early(Executing(100), Some(100), None), [Main(0)], false, 0, 0, 0,
              Step(Main(0), false, Some(SpawnCount(0)), false, 0), COUNTED);
    assert [Main(0)][0 := Main(0)] == [Main(0)];
  }

  lemma FirstChildBorn()
    ensures Seen(Late(YIELDED, NEW_PROC, []), [Main(1), NewCtx(BODY)], false, 0)
  {
    hide Seen;
    MainCounts();
    assert {} - {8} == {};
    SeenBirth(COUNTED, [Main(0)], false, 0, 0, 0, 200, 8, Late(YIELDED, NEW_PROC, []));
    assert [Main(0)][0 := Main(1)] + [NewCtx(BODY)] == [Main(1), NewCtx(BODY)];
  }

  lemma FirstChild()
    ensures Seen(Late(RUNS_SECOND, RUNS_FIRST, []), [Main(1), NewCtx(BODY)], false, 0)
  {
    hide Seen;
    FirstChildBorn();
    var es := BothStart();
    SeenKernels(Late(YIELDED, NEW_PROC, []), [Main(1), NewCtx(BODY)], false, 0, es);
  }

  const ALL_BORN: map<Ptr, Coroutine> :=
    map[100 := Coroutine(0, 7, false), 200 := Coroutine(1, 8, false), 300 := Coroutine(2, 9, false)]

  function Three(p0: Proc, p1: Proc, queue: seq<Ptr>): Sys {
    Sys([p0, p1], queue, 3, ALL_BORN, [100, 200, 300], [], {7, 8, 9})
  }

  const RUNS_THIRD: Proc := Proc(Executing(300), Some(300), None, None, map[], {})

  /** Each processor runs one child. */
  const RACE: Sys := Three(RUNS_SECOND, RUNS_THIRD, [100])

  lemma MainCountsAgain(s: Sys)
    requires s == Late(RUNS_SECOND, RUNS_FIRST.(pc := Counted(100)), []).(workCount := 3)
    ensures Seen(s, [Main(1), NewCtx(BODY)], false, 0)
  {
    hide Seen;
    FirstChild();
    var ctxs := [Main(1), NewCtx(BODY)];
    SeenEvent(Late(RUNS_SECOND, RUNS_FIRST, []), ctxs, false, 0, 1, 0,
              Step(Main(1), false, Some(SpawnCount(1)), false, 0), s);
    assert ctxs[0 := Main(1)] == ctxs;
  }

  lemma SecondChild()
    ensures Seen(RACE, [Main(2), NewCtx(BODY), NewCtx(BODY)], false, 0)
  {
    hide Seen;
    var s, ctxs := Late(RUNS_SECOND, RUNS_FIRST.(pc := Counted(100)), []).(workCount := 3), [Main(1), NewCtx(BODY)];
    MainCountsAgain(s);
    assert {} - {9} == {};
    var q := YIELDED.(newSpawned := Some(300));
    SeenBirth(s, ctxs, false, 0, 1, 0, 300, 9, Three(RUNS_SECOND, q, []));
    assert ctxs[0 := Main(2)] + [NewCtx(BODY)] == [Main(2), NewCtx(BODY), NewCtx(BODY)];
    SecondChildStarts(q, [Main(2), NewCtx(BODY), NewCtx(BODY)]);
  }

  lemma SecondChildStarts(q: Proc, ctxs: seq<Ctx>)
    requires q == YIELDED.(newSpawned := Some(300)) && Seen(Three(RUNS_SECOND, q, []), ctxs, false, 0)
    ensures Seen(RACE, ctxs, false, 0)
  {
    hide Seen;
    var p := Proc(Pushing(100, None), None, None, Some(300), map[], {});
    SeenKernel(Three(RUNS_SECOND, q, []), ctxs, false, 0, Handle(1), Three(RUNS_SECOND, p, []));
    SeenKernel(Three(RUNS_SECOND, p, []), ctxs, false, 0, Push(1), Three(RUNS_SECOND, p.(pc := Draining), [100]));
    SeenKernel(Three(RUNS_SECOND, p.(pc := Draining), [100]), ctxs, false, 0, Drain(1), RACE);
  }

  // ---- the race ----------------------------------------------------------------------------

  /** A child after k actions. */
  function Child(k: nat, guards: nat, dropping: bool, reg: int, loaded: bool): Ctx {
    Ctx(BODY, k, 0, guards, dropping, false, false, reg, loaded, false)
  }

  ghost predicate Racing(c: Ctx, d: Ctx, locked: bool, data: int) {
    Seen(RACE, [Main(2), c, d], locked, data)
  }

  /** The child on processor 0 takes a step. */
  lemma Left(c: Ctx, d: Ctx, locked: bool, data: int, st: Step)
    requires Racing(c, d, locked, data) && c.k <= |c.script|
    requires Behave(c, RUNS_SECOND, locked, data, User(0, 0, 0, 0)) == st && st.event.None?
    ensures Racing(st.ctx, d, st.locked, st.data)
  {
    hide Seen, Behave;
    SeenLocal(RACE, [Main(2), c, d], locked, data, 0, 1, st);
    assert [Main(2), c, d][1 := st.ctx] == [Main(2), st.ctx, d];
  }

  /** The child on processor 1 takes a step. */
  lemma Right(c: Ctx, d: Ctx, locked: bool, data: int, st: Step)
    requires Racing(c, d, locked, data) && d.k <= |d.script|
    requires Behave(d, RUNS_THIRD, locked, data, User(1, 0, 0, 0)) == st && st.event.None?
    ensures Racing(c, st.ctx, st.locked, st.data)
  {
    hide Seen, Behave;
    SeenLocal(RACE, [Main(2), c, d], locked, data, 1, 2, st);
    assert [Main(2), c, d][2 := st.ctx] == [Main(2), c, st.ctx];
  }

  lemma RaceStarts()
    ensures Racing(Child(0, 0, false, 0, false), NewCtx(BODY), false, 0)
  {
    SecondChild();
  }

  /** A full round of the left child, up to the first compare_and_swap of its drop. */
  lemma FirstRound()
    ensures Racing(Child(4, 0, true, 0, false), NewCtx(BODY), false, 1)
  {
    hide Racing;
    RaceStarts();
    var d := NewCtx(BODY);
    Left(Child(0, 0, false, 0, false), d, false, 0, Step(Child(1, 1, false, 0, false), true, None, true, 0));
    Left(Child(1, 1, false, 0, false), d, true, 0, Step(Child(2, 1, false, 0, true), true, None, true, 0));
    Left(Child(2, 1, false, 0, true), d, true, 0, Step(Child(3, 1, false, 0, false), true, None, true, 1));
    Left(Child(3, 1, false, 0, false), d, true, 1, Step(Child(4, 0, true, 0, false), true, None, false, 1));
  }

  /** The right child locks; the left one repeats its compare_and_swap, which clears the
      flag, and locks again. Both have a guard. */
  lemma BothHold()
    ensures Racing(Child(5, 1, false, 0, false), Child(1, 1, false, 0, false), true, 1)
  {
    hide Racing;
    FirstRound();
    var c, d := Child(4, 0, true, 0, false), Child(1, 1, false, 0, false);
    Right(c, NewCtx(BODY), false, 1, Step(d, true, None, true, 1));
    Left(c, d, true, 1, Step(c, false, None, false, 1));
    Left(c, d, false, 1, Step(Child(4, 0, false, 0, false), false, None, false, 1));
    Left(Child(4, 0, false, 0, false), d, false, 1, Step(Child(5, 1, false, 0, false), true, None, true, 1));
  }

  /** Both load one and store two. */
  lemma BothStore()
    ensures Racing(Child(7, 1, false, 1, false), Child(3, 1, false, 1, false), true, 2)
  {
    hide Racing;
    BothHold();
    var c, d := Child(5, 1, false, 0, false), Child(1, 1, false, 0, false);
    Left(c, d, true, 1, Step(Child(6, 1, false, 1, true), true, None, true, 1));
    Right(Child(6, 1, false, 1, true), d, true, 1, Step(Child(2, 1, false, 1, true), true, None, true, 1));
    Left(Child(6, 1, false, 1, true), Child(2, 1, false, 1, true), true, 1,
      Step(Child(7, 1, false, 1, false), true, None, true, 2));
    Right(Child(7, 1, false, 1, false), Child(2, 1, false, 1, true), true, 2,
      Step(Child(3, 1, false, 1, false), true, None, true, 2));
  }

  lemma BothUnlock()
    ensures Racing(Child(8, 0, false, 1, false), Child(4, 0, false, 1, false), false, 2)
  {
    hide Racing;
    BothStore();
    var c, d := Child(8, 0, true, 1, false), Child(3, 1, false, 1, false);
    Left(Child(7, 1, false, 1, false), d, true, 2, Step(c, true, None, false, 2));
    Left(c, d, false, 2, Step(Child(8, 0, false, 1, false), false, None, false, 2));
    Right(Child(8, 0, false, 1, false), d, false, 2, Step(Child(4, 0, false, 1, false), true, None, false, 2));
  }

  lemma LastRound()
    ensures Racing(Child(8, 0, false, 1, false), Child(8, 0, false, 2, false), false, 3)
  {
    hide Racing;
    BothUnlock();
    var c := Child(8, 0, false, 1, false);
    Right(c, Child(4, 0, false, 1, false), false, 2, Step(Child(5, 1, false, 1, false), true, None, true, 2));
    Right(c, Child(5, 1, false, 1, false), true, 2, Step(Child(6, 1, false, 2, true), true, None, true, 2));
    Right(c, Child(6, 1, false, 2, true), true, 2, Step(Child(7, 1, false, 2, false), true, None, true, 3));
    Right(c, Child(7, 1, false, 2, false), true, 3, Step(Child(8, 0, true, 2, false), true, None, false, 3));
    Right(c, Child(8, 0, true, 2, false), false, 3, Step(Child(8, 0, false, 2, false), false, None, false, 3));
  }

  // ---- both threads return ---------------------------------------------------------------

  function Late3(p0: Proc, p1: Proc, queue: seq<Ptr>, count: nat, heap: map<Ptr, Coroutine>, freed: seq<nat>): Sys {
    Sys([p0, p1], queue, count, heap, [100, 200, 300], freed, {7, 8, 9})
  }

  /** Looking for work, with the given stacks in the pool. */
  function Idles(pc: Pc, pool: set<Stack>): Proc {
    NEW_PROC.(pc := pc, pool := pool)
  }

  /** Processor i, which executes h, is to return from it. */
  predicate Retiring(s: Sys, ctxs: seq<Ctx>, i: nat, id: nat, h: Ptr, pool: set<Stack>) {
    && Runs(s, ctxs, i, id) && s.workCount > 0
    && s.procs[i] == Proc(Executing(h), Some(h), None, None, map[], pool)
    && ctxs[id].k == |ctxs[id].script| && ctxs[id].guards == 0 && !ctxs[id].dropping && !ctxs[id].unwinding
  }

  lemma Ends(s: Sys, ctxs: seq<Ctx>, i: nat, id: nat, data: int, h: Ptr, pool: set<Stack>)
    requires Seen(s, ctxs, false, data) && Retiring(s, ctxs, i, id, h, pool)
    ensures Seen(s.(procs := s.procs[i := Proc(Returned(h), None, Some(Ok(Finished)), None, map[], pool)],
                    heap := s.heap[h := s.heap[h].(returned := true)]),
                 ctxs[id := ctxs[id].(ended := true)], false, data)
  {
    hide Seen;
    var p := Proc(Returned(h), None, Some(Ok(Finished)), None, map[], pool);
    SeenEvent(s, ctxs, false, data, i, id, Step(ctxs[id].(ended := true), false, Some(Return(i)), false, data),
              s.(procs := s.procs[i := p], heap := s.heap[h := s.heap[h].(returned := true)]));
  }

  lemma Finishes(s: Sys, ctxs: seq<Ctx>, i: nat, data: int, h: Ptr, pool: set<Stack>, s': Sys)
    requires Seen(s, ctxs, false, data) && i < |s.procs| && s.workCount > 0
    requires s.procs[i] == Proc(Returned(h), None, Some(Ok(Finished)), None, map[], pool)
    requires s' == s.(procs := s.procs[i := Idles(Freeing(h), pool)], workCount := s.workCount - 1)
    ensures Seen(s', ctxs, false, data)
  {
    hide Seen;
    SeenKernel(s, ctxs, false, data, Handle(i), s');
  }

  lemma Drops(s: Sys, ctxs: seq<Ctx>, i: nat, data: int, h: Ptr, pool: set<Stack>, s': Sys)
    requires Seen(s, ctxs, false, data) && i < |s.procs| && h in s.heap && s.procs[i] == Idles(Freeing(h), pool)
    requires s' == s.(procs := s.procs[i := Idles(Draining, pool + {s.heap[h].stack})],
                      heap := s.heap - {h}, freed := s.freed + [s.heap[h].id])
    ensures Seen(s', ctxs, false, data)
  {
    hide Seen;
    SeenKernel(s, ctxs, false, data, Free(i), s');
  }

  /** A coroutine that has performed its whole script, without a guard, returns and is
      dropped. */
  lemma Retires(s: Sys, ctxs: seq<Ctx>, i: nat, id: nat, data: int, h: Ptr, pool: set<Stack>)
    requires Seen(s, ctxs, false, data) && Retiring(s, ctxs, i, id, h, pool)
    ensures Seen(s.(procs := s.procs[i := Idles(Draining, pool + {s.heap[h].stack})], workCount := s.workCount - 1,
                    heap := s.heap - {h}, freed := s.freed + [id]),
                 ctxs[id := ctxs[id].(ended := true)], false, data)
  {
    hide Seen;
    Ends(s, ctxs, i, id, data, h, pool);
    var ctxs' := ctxs[id := ctxs[id].(ended := true)];
    var p1, p2 := Proc(Returned(h), None, Some(Ok(Finished)), None, map[], pool), Idles(Freeing(h), pool);
    var heap := s.heap[h := s.heap[h].(returned := true)];
    var s1 := s.(procs := s.procs[i := p1], heap := heap);
    var s2 := s.(procs := s.procs[i := p2], heap := heap, workCount := s.workCount - 1);
    assert s1.procs[i := p2] == s2.procs;
    Finishes(s1, ctxs', i, data, h, pool, s2);
    var p3 := Idles(Draining, pool + {s.heap[h].stack});
    assert s2.procs[i := p3] == s.procs[i := p3] && heap - {h} == s.heap - {h};
    Drops(s2, ctxs', i, data, h, pool,
      s.(procs := s.procs[i := p3], workCount := s.workCount - 1, heap := s.heap - {h}, freed := s.freed + [id]));
  }

  /** A processor with nothing to do leaves its loop when nothing is counted. */
  lemma Leaves(s: Sys, ctxs: seq<Ctx>, i: nat, data: int, pool: set<Stack>)
    requires Seen(s, ctxs, false, data) && s.workCount == 0 && s.queue == []
    requires i < |s.procs| && s.procs[i] == Idles(Draining, pool)
    ensures Seen(s.(procs := s.procs[i := Idles(Exited(true), pool)]), ctxs, false, data)
  {
    hide Seen;
    var s1, s2 := s.(procs := s.procs[i := Idles(Popping, pool)]), s.(procs := s.procs[i := Idles(CheckingSlab, pool)]);
    SeenKernel(s, ctxs, false, data, Drain(i), s1);
    assert s1.procs[i := Idles(CheckingSlab, pool)] == s2.procs;
    SeenKernel(s1, ctxs, false, data, Pop(i), s2);
    var s3 := s.(procs := s.procs[i := Idles(CheckingCount, pool)]);
    assert s2.procs[i := Idles(CheckingCount, pool)] == s3.procs;
    SeenKernel(s2, ctxs, false, data, CheckSlab(i), s3);
    assert s3.procs[i := Idles(Exited(true), pool)] == s.procs[i := Idles(Exited(true), pool)];
    SeenKernel(s3, ctxs, false, data, CheckCount(i), s.(procs := s.procs[i := Idles(Exited(true), pool)]));
  }

  const ENDED: seq<Ctx> :=
    [Main(2).(ended := true), Child(8, 0, false, 1, false).(ended := true),
     Child(8, 0, false, 2, false).(ended := true)]

  lemma ChildrenRetire()
    ensures Seen(Late3(Idles(Draining, {8}), Idles(Draining, {9}), [100], 1, ONE_BORN, [1, 2]),
                 ENDED[0 := Main(2)], false, 3)
  {
    hide Seen;
    var c, d := Child(8, 0, false, 1, false), Child(8, 0, false, 2, false);
    LastRoundSeen(c, d);
    Retires(RACE, [Main(2), c, d], 0, 1, 3, 200, {});
    var ctxs := [Main(2), c.(ended := true), d];
    assert [Main(2), c, d][1 := c.(ended := true)] == ctxs && {} + {8} == {8};
    var heap := map[100 := Coroutine(0, 7, false), 300 := Coroutine(2, 9, false)];
    assert ALL_BORN - {200} == heap && [] + [1] == [1];
    var s := Late3(Idles(Draining, {8}), RUNS_THIRD, [100], 2, heap, [1]);
    assert [RUNS_SECOND, RUNS_THIRD][0 := Idles(Draining, {8})] == s.procs;
    Retires(s, ctxs, 1, 2, 3, 300, {});
    assert ctxs[2 := d.(ended := true)] == ENDED[0 := Main(2)] && {} + {9} == {9};
    assert heap - {300} == ONE_BORN && [1] + [2] == [1, 2];
    assert s.procs[1 := Idles(Draining, {9})] == [Idles(Draining, {8}), Idles(Draining, {9})];
  }

  lemma LastRoundSeen(c: Ctx, d: Ctx)
    requires c == Child(8, 0, false, 1, false) && d == Child(8, 0, false, 2, false)
    ensures Seen(RACE, [Main(2), c, d], false, 3)
  {
    LastRound();
  }

  lemma MainRetires()
    ensures Seen(Late3(Idles(Draining, {7, 8}), Idles(Draining, {9}), [], 0, map[], [1, 2, 0]), ENDED, false, 3)
  {
    hide Seen;
    ChildrenRetire();
    var q, ctxs := Idles(Draining, {9}), ENDED[0 := Main(2)];
    var s := Late3(Idles(Draining, {8}), q, [100], 1, ONE_BORN, [1, 2]);
    var s1 := Late3(Idles(Popping, {8}), q, [100], 1, ONE_BORN, [1, 2]);
    SeenKernel(s, ctxs, false, 3, Drain(0), s1);
    var s2 := Late3(RUNS_FIRST.(pool := {8}), q, [], 1, ONE_BORN, [1, 2]);
    SeenKernel(s1, ctxs, false, 3, Pop(0), s2);
    Retires(s2, ctxs, 0, 0, 3, 100, {8});
    assert ctxs[0 := Main(2).(ended := true)] == ENDED && {8} + {7} == {7, 8};
    assert ONE_BORN - {100} == map[] && [1, 2] + [0] == [1, 2, 0];
    assert s2.procs[0 := Idles(Draining, {7, 8})] == [Idles(Draining, {7, 8}), q];
  }

  lemma BothLeave(s: Sys)
    requires s == Late3(Idles(Exited(true), {7, 8}), Idles(Exited(true), {9}), [], 0, map[], [1, 2, 0])
    ensures Seen(s, ENDED, false, 3)
  {
    hide Seen;
    MainRetires();
    var s0 := Late3(Idles(Draining, {7, 8}), Idles(Draining, {9}), [], 0, map[], [1, 2, 0]);
    var s1 := Late3(Idles(Exited(true), {7, 8}), Idles(Draining, {9}), [], 0, map[], [1, 2, 0]);
    Leaves(s0, ENDED, 0, 3, {7, 8});
    assert s0.procs[0 := Idles(Exited(true), {7, 8})] == s1.procs;
    Leaves(s1, ENDED, 1, 3, {9});
    assert s1.procs[1 := Idles(Exited(true), {9})] == s.procs;
  }

  /** Both threads of the test return without error, all three coroutines have run to their
      end, no lock has failed, nobody has panicked and the lock is free; but of the four
      increments of this disciplined program only three have counted. */
  lemma WitnessLostUpdate() returns (ms: seq<Move>)
    ensures Play(Boot(2, 0), ms).Some? && LaunchesDisciplined(ms)
    ensures var w := Play(Boot(2, 0), ms).value;
      && (forall i :: 0 <= i < |w.sys.procs| ==> w.sys.procs[i].pc == Exited(true))
      && NonePanicked(w.ctxs) && !w.locked && w.ctxs != [] && w.ctxs[0].script == Counter(2, 2)
      && StoresLaunched(w.trace) == 4 && w.data == 3
  {
    hide Play, Counter, Disciplined, Tame, StoresIn;
    var s := Late3(Idles(Exited(true), {7, 8}), Idles(Exited(true), {9}), [], 0, map[], [1, 2, 0]);
    BothLeave(s);
    var trace;
    ms, trace :| Leads(ms, trace, s, ENDED, false, 3);
    MainIsCounter();
    CounterTotal(2, 2);
  }
}
