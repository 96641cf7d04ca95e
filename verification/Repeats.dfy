/** What loading and saving contexts does when the protocol has been broken: two processors
    that run one coroutine repeat its actions. */
module Repeats {
  import opened Basics
  import opened Protocol
  import opened Fairness
  import opened Programs
  import opened Switching
  import opened Premises

  lemma OperateSnoc(m: Machine, ms: seq<Move>, v: Machine, mv: Move)
    requires Operate(m, ms) == Some(v) && CanSwitch(v, mv)
    ensures Operate(m, ms + [mv]) == Some(Switch(v, mv))
  {
    assert (ms + [mv])[..|ms|] == ms;
  }

  lemma OperateTwice(m: Machine, a: Move, b: Move)
    requires CanSwitch(m, a) && CanSwitch(Switch(m, a), b)
    ensures Operate(m, [a, b]) == Some(Switch(Switch(m, a), b))
  {
    assert [] + [a] == [a] && [a] + [b] == [a, b];
    OperateSnoc(m, [], m, a);
    OperateSnoc(m, [a], Switch(m, a), b);
  }

  /** The two processors are about to pop the same coroutine, which is about to read the
      data. */
  predicate QueuedTwice(m: Machine, i: nat, j: nat, h: Ptr) {
    && i != j && i < |m.sys.procs| && j < |m.sys.procs| && |m.loaded| == |m.sys.procs|
    && m.sys.procs[i].pc.Popping? && m.sys.procs[j].pc.Popping? && [h, h] <= m.sys.queue
    && h in m.sys.heap && !m.sys.heap[h].returned && m.sys.heap[h].id < |m.saved|
    && var c := m.saved[m.sys.heap[h].id];
       c.k < |c.script| && c.script[c.k].Load? && !c.dropping && !c.unwinding
  }

  /** Both processors have loaded the same context. */
  predicate LoadedTwice(m: Machine, i: nat, j: nat, id: nat, c: Ctx) {
    && i != j && Active(m, i) && Active(m, j) && m.loaded[i] == Some(c) && m.loaded[j] == Some(c)
    && m.sys.procs[i].pc.Executing? && m.sys.procs[j].pc.Executing?
    && m.sys.procs[i].curRunning == Some(m.sys.procs[i].pc.hdl) &&
      m.sys.procs[j].curRunning == Some(m.sys.procs[j].pc.hdl)
    && m.sys.heap[m.sys.procs[i].pc.hdl].id == id && m.sys.heap[m.sys.procs[j].pc.hdl].id == id
    && c.k < |c.script| && c.script[c.k].Load? && !c.dropping && !c.unwinding
  }

  lemma PopsTwice(m: Machine, i: nat, j: nat, h: Ptr)
    requires QueuedTwice(m, i, j, h)
    ensures CanSwitch(m, Kernel(Pop(i))) && CanSwitch(Switch(m, Kernel(Pop(i))), Kernel(Pop(j)))
    ensures var id := m.sys.heap[h].id; var v := Switch(Switch(m, Kernel(Pop(i))), Kernel(Pop(j)));
      LoadedTwice(v, i, j, id, m.saved[id]) && v.trace == m.trace
  {
    assert m.sys.queue[0] == [h, h][0] && m.sys.queue[1] == [h, h][1];
  }

  lemma ActsTwice(m: Machine, i: nat, j: nat, id: nat, c: Ctx)
    requires LoadedTwice(m, i, j, id, c)
    ensures var a, b := User(i, 0, 0, 0), User(j, 0, 0, 0);
      CanSwitch(m, a) && CanSwitch(Switch(m, a), b) &&
      Switch(Switch(m, a), b).trace == m.trace + [Did(id, c.script[c.k], false), Did(id, c.script[c.k], false)]
  {
    var a := User(i, 0, 0, 0);
    var v := Switch(m, a);
    assert v.sys == m.sys && v.trace == m.trace + [Did(id, c.script[c.k], false)];
    assert LocalStep(v, User(j, 0, 0, 0)).done;
  }

  /** Wherever a coroutine is queued twice, two processors that pop next load its context
      twice, and both perform the one action at which it stands. */
  lemma QueuedTwiceRepeats(m: Machine, i: nat, j: nat, h: Ptr)
    requires QueuedTwice(m, i, j, h)
    ensures var ms := [Kernel(Pop(i)), Kernel(Pop(j)), User(i, 0, 0, 0), User(j, 0, 0, 0)];
      var id := m.sys.heap[h].id; var a := m.saved[id].script[m.saved[id].k];
      Operate(m, ms).Some? && Operate(m, ms).value.trace == m.trace + [Did(id, a, false), Did(id, a, false)]
  {
    hide Behave, Apply, Switch, CanSwitch;
    PopsTwice(m, i, j, h);
    var id := m.sys.heap[h].id;
    var p, q, a, b := Kernel(Pop(i)), Kernel(Pop(j)), User(i, 0, 0, 0), User(j, 0, 0, 0);
    OperateTwice(m, p, q);
    var v := Switch(Switch(m, p), q);
    ActsTwice(v, i, j, id, m.saved[id]);
    OperateSnoc(m, [p, q], v, a);
    OperateSnoc(m, [p, q] + [a], Switch(v, a), b);
    assert [p, q] + [a] + [b] == [p, q, a, b];
  }

  // ---- scripts whose registrations may fail ---------------------------------------------

  /** A move of the usual semantics, or a wait_event whose registration fails: it returns an
      error to its caller, here one that goes on regardless. */
  datatype Attempt = Usual(m: Move) | FailWait(i: nat, token: Token)

  predicate CanTry(m: Machine, a: Attempt) {
    match a
    case Usual(mv) => CanSwitch(m, mv)
    case FailWait(i, t) =>
      Active(m, i) && m.sys.procs[i].pc.Executing? && Enabled(m.sys, RegisterFail(i, t)) &&
      var c := m.loaded[i].value;
      c.k < |c.script| && c.script[c.k].Wait? && !c.dropping && !c.unwinding
  }

  function Try(m: Machine, a: Attempt): Machine
    requires CanTry(m, a)
  {
    match a
    case Usual(mv) => Switch(m, mv)
    case FailWait(i, t) =>
      var c := m.loaded[i].value;
      m.(sys := Apply(m.sys, RegisterFail(i, t)), loaded := m.loaded[i := Some(c.(k := c.k + 1))],
         trace := m.trace + [Did(m.sys.heap[m.sys.procs[i].pc.hdl].id, Wait, false)])
  }

  function Attempts(m: Machine, tries: seq<Attempt>): Option<Machine> {
    if tries == [] then Some(m) else
      match Attempts(m, tries[..|tries| - 1])
      case None => None
      case Some(v) => if CanTry(v, tries[|tries| - 1]) then Some(Try(v, tries[|tries| - 1])) else None
  }

  lemma TrySnoc(m: Machine, tries: seq<Attempt>, v: Machine, a: Attempt)
    requires Attempts(m, tries) == Some(v) && CanTry(v, a)
    ensures Attempts(m, tries + [a]) == Some(Try(v, a))
  {
    assert (tries + [a])[..|tries|] == tries;
  }

  lemma {:induction false} TryAll(m: Machine, tries: seq<Attempt>, v: Machine, ms: seq<Move>)
    returns (all: seq<Attempt>)
    requires Attempts(m, tries) == Some(v) && Operate(v, ms).Some?
    ensures Attempts(m, all) == Operate(v, ms)
  {
    all := tries;
    if ms != [] {
      all := TryAll(m, tries, v, ms[..|ms| - 1]);
      TrySnoc(m, all, Operate(v, ms[..|ms| - 1]).value, Usual(ms[|ms| - 1]));
      all := all + [Usual(ms[|ms| - 1])];
    }
  }

  lemma TryStep(m: Machine, a: Attempt) returns (es: seq<Event>)
    requires CanTry(m, a)
    ensures RawExec(m.sys, es) == Some(Try(m, a).sys)
  {
    es := match a
      case Usual(mv) => (if Cause(m, mv).Some? then [Cause(m, mv).value] else [])
      case FailWait(i, t) => [RegisterFail(i, t)];
    if es != [] {
      assert es == [] + es;
      RawSnoc(m.sys, [], es[0]);
    }
  }

  lemma {:induction false} RawJoin(s: Sys, es: seq<Event>, m: Sys, fs: seq<Event>)
    requires RawExec(s, es) == Some(m) && RawExec(m, fs).Some?
    ensures RawExec(s, es + fs) == RawExec(m, fs)
  {
    if fs == [] {
      assert es + fs == es;
    } else {
      var init := fs[..|fs| - 1];
      RawJoin(s, es, m, init);
      RawSnoc(s, es + init, fs[|fs| - 1]);
      assert es + init + [fs[|fs| - 1]] == es + fs;
    }
  }

  /** A run of scripts whose registrations may fail is a run of what the code can do. */
  lemma {:induction false} AttemptsRefine(m: Machine, tries: seq<Attempt>) returns (es: seq<Event>)
    requires Attempts(m, tries).Some?
    ensures RawExec(m.sys, es) == Some(Attempts(m, tries).value.sys)
  {
    es := [];
    if tries != [] {
      var init := tries[..|tries| - 1];
      es := AttemptsRefine(m, init);
      var v := Attempts(m, init).value;
      var fs := TryStep(v, tries[|tries| - 1]);
      RawJoin(m.sys, es, v.sys, fs);
      es := es + fs;
    }
  }

  // ---- a run with one failed registration -----------------------------------------------

  const SCRIPT: seq<Action> := [Wait, Wait, Load]

  /** The coroutine has performed script[..k]; processor 0 may have loaded its context. */
  function Stage(sys: Sys, k: nat, loaded: Option<Ctx>): Machine
    requires k <= 2
  {
    Machine(sys, [NewCtx(SCRIPT).(k := if loaded.Some? then 0 else k)], [loaded, None], false, 0,
            if k == 0 then [Root(SCRIPT)] else
            if k == 1 then [Root(SCRIPT), Did(0, Wait, false)] else
            [Root(SCRIPT), Did(0, Wait, false), Did(0, Wait, false)])
  }

  const RUNS: Proc := Proc(Executing(100), Some(100), None, None, map[], {})
  const TWO_TOKENS: map<Token, Ptr> := map[5 := 100, 6 := 100]

  /** One event of the scheduler that resumes nobody. */
  lemma KernelTry(m: Machine, tries: seq<Attempt>, v: Machine, e: Event, s': Sys)
    requires Attempts(m, tries) == Some(v) && IsKernel(e) && Legal(v.sys, e) && ResumedBy(v.sys, e).None?
    requires Same(Apply(v.sys, e), s')
    ensures Attempts(m, tries + [Usual(Kernel(e))]) == Some(v.(sys := s'))
  {
    TrySnoc(m, tries, v, Usual(Kernel(e)));
  }

  lemma StageTry(tries: seq<Attempt>, s: Sys, k: nat, e: Event, s': Sys)
    requires k <= 2 && Attempts(Startup(2, 0), tries) == Some(Stage(s, k, None))
    requires IsKernel(e) && Legal(s, e) && ResumedBy(s, e).None? && Same(Apply(s, e), s')
    ensures Attempts(Startup(2, 0), tries + [Usual(Kernel(e))]) == Some(Stage(s', k, None))
  {
    KernelTry(Startup(2, 0), tries, Stage(s, k, None), e, s');
  }

  lemma SpawnedTry() returns (tries: seq<Attempt>)
    ensures Attempts(Startup(2, 0), tries) == Some(Stage(One(BORN, []), 0, None))
  {
    var m, l := Startup(2, 0), Programs.Move.Launch(0, 100, 7, SCRIPT);
    var s := Sys([NEW_PROC.(pc := TopCounted), NEW_PROC], [], 1, map[], [], [], {});
    KernelTry(m, [], m, TopCount(0), s);
    tries := [] + [Usual(Kernel(TopCount(0)))];
    Launches(m.(sys := s), l);
    TrySnoc(m, tries, m.(sys := s), Usual(l));
    tries := tries + [Usual(l)];
  }

  lemma Launches(m: Machine, l: Move)
    requires l == Programs.Move.Launch(0, 100, 7, SCRIPT)
    requires m == Startup(2, 0).(sys := Sys([NEW_PROC.(pc := TopCounted), NEW_PROC], [], 1, map[], [], [], {}))
    ensures CanTry(m, Usual(l)) && Try(m, Usual(l)) == Stage(One(BORN, []), 0, None)
  {
    assert {} - {7} == {} && m.loaded == [None, None];
    assert Same(Apply(m.sys, TopCreate(0, 100, 7)), One(BORN, []));
    assert Try(m, Usual(l)).saved == [NewCtx(SCRIPT)] && NewCtx(SCRIPT).(k := 0) == NewCtx(SCRIPT);
  }

  lemma LaunchedTry() returns (tries: seq<Attempt>)
    ensures Attempts(Startup(2, 0), tries) == Some(Stage(One(RUNS, []), 0, Some(NewCtx(SCRIPT))))
  {
    hide Attempts, CanTry, Try, Stage, Startup;
    tries := SpawnedTry();
    StageTry(tries, One(BORN, []), 0, Start(0), One(BORN.(pc := Popping), []));
    tries := tries + [Usual(Kernel(Start(0)))];
    StageTry(tries, One(BORN.(pc := Popping), []), 0, Pop(0), One(BORN.(pc := CheckingSlab), []));
    tries := tries + [Usual(Kernel(Pop(0)))];
    StageTry(tries, One(BORN.(pc := CheckingSlab), []), 0, CheckSlab(0), One(BORN.(pc := CheckingCount), []));
    tries := tries + [Usual(Kernel(CheckSlab(0)))];
    StageTry(tries, One(BORN.(pc := CheckingCount), []), 0, CheckCount(0), One(BORN.(pc := Draining), []));
    tries := tries + [Usual(Kernel(CheckCount(0)))];
    FirstRuns(Kernel(Drain(0)));
    TrySnoc(Startup(2, 0), tries, Stage(One(BORN.(pc := Draining), []), 0, None), Usual(Kernel(Drain(0))));
    tries := tries + [Usual(Kernel(Drain(0)))];
  }

  lemma FirstRuns(mv: Move)
    requires mv == Kernel(Drain(0))
    ensures var v := Stage(One(BORN.(pc := Draining), []), 0, None);
      CanTry(v, Usual(mv)) && Try(v, Usual(mv)) == Stage(One(RUNS, []), 0, Some(NewCtx(SCRIPT)))
  {
    assert Same(Apply(One(BORN.(pc := Draining), []), Drain(0)), One(RUNS, []));
    assert NewCtx(SCRIPT).(k := 0) == NewCtx(SCRIPT);
  }

  /** The first wait fails to register and the coroutine goes on to the second, which parks
      it. */
  lemma ParkedTry() returns (tries: seq<Attempt>)
    ensures Attempts(Startup(2, 0), tries) ==
      Some(Stage(One(Proc(Returned(100), None, Some(Ok(Blocked)), None, TWO_TOKENS, {}), []), 2, None))
  {
    hide Attempts, CanTry, Try, Stage, Startup;
    var m, c := Startup(2, 0), NewCtx(SCRIPT);
    tries := LaunchedTry();
    var p1, p2 := RUNS.(slab := map[5 := 100]), RUNS.(pc := InWait(100, 6), slab := TWO_TOKENS);
    var p3 := Proc(Returned(100), None, Some(Ok(Blocked)), None, TWO_TOKENS, {});
    FirstWait(p1, FailWait(0, 5));
    TrySnoc(m, tries, Stage(One(RUNS, []), 0, Some(c)), FailWait(0, 5));
    tries := tries + [FailWait(0, 5)];
    SecondWait(p1, p2, User(0, 0, 0, 6));
    TrySnoc(m, tries, Stage(One(p1, []), 1, Some(c.(k := 1))), Usual(User(0, 0, 0, 6)));
    tries := tries + [Usual(User(0, 0, 0, 6))];
    Blocks(p2, p3, User(0, 0, 0, 0));
    TrySnoc(m, tries, Stage(One(p2, []), 2, Some(c.(k := 2))), Usual(User(0, 0, 0, 0)));
    tries := tries + [Usual(User(0, 0, 0, 0))];
  }

  lemma FirstWait(p: Proc, a: Attempt)
    requires a == FailWait(0, 5) && p == RUNS.(slab := map[5 := 100])
    ensures var v := Stage(One(RUNS, []), 0, Some(NewCtx(SCRIPT)));
      CanTry(v, a) && Try(v, a) == Stage(One(p, []), 1, Some(NewCtx(SCRIPT).(k := 1)))
  {
    assert Same(Apply(One(RUNS, []), RegisterFail(0, 5)), One(p, []));
    assert NewCtx(SCRIPT).(k := 0) == NewCtx(SCRIPT);
  }

  lemma SecondWait(p: Proc, q: Proc, mv: Move)
    requires mv == User(0, 0, 0, 6) && p == RUNS.(slab := map[5 := 100]) &&
      q == RUNS.(pc := InWait(100, 6), slab := TWO_TOKENS)
    ensures var v, c := Stage(One(p, []), 1, Some(NewCtx(SCRIPT).(k := 1))), NewCtx(SCRIPT).(k := 2);
      CanTry(v, Usual(mv)) && Try(v, Usual(mv)) == Stage(One(q, []), 2, Some(c))
  {
    var v := Stage(One(p, []), 1, Some(NewCtx(SCRIPT).(k := 1)));
    assert LocalStep(v, mv) == Step(NewCtx(SCRIPT).(k := 2), true, Some(WaitInsert(0, 6)), false, 0);
    assert Same(Apply(v.sys, WaitInsert(0, 6)), One(q, []));
    assert v.saved + [] == v.saved;
  }

  lemma Blocks(p: Proc, q: Proc, mv: Move)
    requires mv == User(0, 0, 0, 0) && p == RUNS.(pc := InWait(100, 6), slab := TWO_TOKENS)
    requires q == Proc(Returned(100), None, Some(Ok(Blocked)), None, TWO_TOKENS, {})
    ensures var v := Stage(One(p, []), 2, Some(NewCtx(SCRIPT).(k := 2)));
      CanTry(v, Usual(mv)) && Try(v, Usual(mv)) == Stage(One(q, []), 2, None)
  {
    var v := Stage(One(p, []), 2, Some(NewCtx(SCRIPT).(k := 2)));
    assert LocalStep(v, mv) == Step(NewCtx(SCRIPT).(k := 2), false, Some(Block(0)), false, 0);
    assert Same(Apply(v.sys, Block(0)), One(q, []));
  }

  lemma PolledTry() returns (tries: seq<Attempt>)
    ensures Attempts(Startup(2, 0), tries) ==
      Some(Stage(One(NEW_PROC.(pc := Dispatching([6, 5]), slab := TWO_TOKENS), []), 2, None))
  {
    hide Attempts, CanTry, Try, Stage, Startup;
    var p := NEW_PROC.(slab := TWO_TOKENS);
    tries := ParkedTry();
    var q := Proc(Returned(100), None, Some(Ok(Blocked)), None, TWO_TOKENS, {});
    StageTry(tries, One(q, []), 2, Handle(0), One(p.(pc := Draining), []));
    tries := tries + [Usual(Kernel(Handle(0)))];
    StageTry(tries, One(p.(pc := Draining), []), 2, Drain(0), One(p.(pc := Popping), []));
    tries := tries + [Usual(Kernel(Drain(0)))];
    StageTry(tries, One(p.(pc := Popping), []), 2, Pop(0), One(p.(pc := CheckingSlab), []));
    tries := tries + [Usual(Kernel(Pop(0)))];
    StageTry(tries, One(p.(pc := CheckingSlab), []), 2, CheckSlab(0), One(p.(pc := Polling), []));
    tries := tries + [Usual(Kernel(CheckSlab(0)))];
    StageTry(tries, One(p.(pc := Polling), []), 2, Poll(0, [6, 5]), One(p.(pc := Dispatching([6, 5])), []));
    tries := tries + [Usual(Kernel(Poll(0, [6, 5])))];
  }

  lemma FirstWoken() returns (tries: seq<Attempt>)
    ensures Attempts(Startup(2, 0), tries) ==
      Some(Stage(One(NEW_PROC.(pc := Dispatching([5]), slab := map[5 := 100]), [100]), 2, None))
  {
    hide Attempts, CanTry, Try, Stage, Startup;
    var p := NEW_PROC.(slab := map[5 := 100]);
    tries := PolledTry();
    var s := One(NEW_PROC.(pc := Dispatching([6, 5]), slab := TWO_TOKENS), []);
    assert TWO_TOKENS - {6} == map[5 := 100] && [6, 5][1..] == [5];
    StageTry(tries, s, 2, Dispatch(0), One(p.(pc := Pushing(100, Some([5]))), []));
    tries := tries + [Usual(Kernel(Dispatch(0)))];
    StageTry(tries, One(p.(pc := Pushing(100, Some([5]))), []), 2, Push(0), One(p.(pc := Dispatching([5])), [100]));
    tries := tries + [Usual(Kernel(Push(0)))];
  }

  lemma WokenTry() returns (tries: seq<Attempt>)
    ensures Attempts(Startup(2, 0), tries) == Some(Stage(One(NEW_PROC.(pc := Draining), [100, 100]), 2, None))
  {
    hide Attempts, CanTry, Try, Stage, Startup;
    tries := FirstWoken();
    var p, q := NEW_PROC.(slab := map[5 := 100]), NEW_PROC.(pc := Pushing(100, Some([])));
    assert map[5 := 100] - {5} == map[] && [5][1..] == [];
    StageTry(tries, One(p.(pc := Dispatching([5])), [100]), 2, Dispatch(0), One(q, [100]));
    tries := tries + [Usual(Kernel(Dispatch(0)))];
    StageTry(tries, One(q, [100]), 2, Push(0), One(NEW_PROC.(pc := Dispatching([])), [100, 100]));
    tries := tries + [Usual(Kernel(Push(0)))];
    var r := NEW_PROC.(pc := Dispatching([]));
    StageTry(tries, One(r, [100, 100]), 2, Dispatch(0), One(r.(pc := Draining), [100, 100]));
    tries := tries + [Usual(Kernel(Dispatch(0)))];
  }

  /** After a failed registration, a batch of events that has also the refused token queues
      the coroutine twice. */
  lemma WitnessQueuedTwice() returns (es: seq<Event>)
    ensures RawExec(Init(2), es) == Some(One(NEW_PROC.(pc := Draining), [100, 100]))
  {
    var tries := WokenTry();
    es := AttemptsRefine(Startup(2, 0), tries);
  }

  /** Two processors then pop it, and each performs the only Load of its script: a run from
      the start, with one failed registration and one event for the refused token. */
  lemma WitnessRepeats() returns (tries: seq<Attempt>)
    ensures Attempts(Startup(2, 0), tries).Some?
    ensures Attempts(Startup(2, 0), tries).value.trace ==
      [Root(SCRIPT), Did(0, Wait, false), Did(0, Wait, false), Did(0, Load, false), Did(0, Load, false)]
  {
    hide Attempts, CanTry, Try, Startup, Behave, Active;
    var p := NEW_PROC;
    tries := WokenTry();
    StageTry(tries, One(p.(pc := Draining), [100, 100]), 2, Drain(0), One(p.(pc := Popping), [100, 100]));
    tries := tries + [Usual(Kernel(Drain(0)))];
    var both := One(p, [100, 100]).(procs := [p.(pc := Popping), p.(pc := Popping)]);
    StageTry(tries, One(p.(pc := Popping), [100, 100]), 2, Start(1), both);
    tries := tries + [Usual(Kernel(Start(1)))];
    QueuedTwiceRepeats(Stage(both, 2, None), 0, 1, 100);
    tries := TryAll(Startup(2, 0), tries, Stage(both, 2, None),
      [Kernel(Pop(0)), Kernel(Pop(1)), User(0, 0, 0, 0), User(1, 0, 0, 0)]);
  }

  /** The coroutine at 100 and its box, before and after its function has returned. */
  function Shared(p: Proc, q: Proc, queue: seq<Ptr>, count: nat, returned: bool): Sys {
    Sys([p, q], queue, count, map[100 := Coroutine(0, 7, returned)], [100], [], {7})
  }

  const RETURNED: Proc := Proc(Returned(100), None, Some(Ok(Finished)), None, map[], {})

  lemma OnePops() returns (es: seq<Event>)
    ensures RawExec(Init(2), es) == Some(Shared(RUNS, NEW_PROC.(pc := Popping), [100], 1, false))
  {
    hide RawExec;
    var s, p, popping := Init(2), NEW_PROC, NEW_PROC.(pc := Popping);
    es := WitnessQueuedTwice();
    RawThen(s, es, One(p.(pc := Draining), [100, 100]), Drain(0), Shared(popping, p, [100, 100], 1, false));
    es := es + [Drain(0)];
    RawThen(s, es, Shared(popping, p, [100, 100], 1, false), Start(1), Shared(popping, popping, [100, 100], 1, false));
    es := es + [Start(1)];
    RawThen(s, es, Shared(popping, popping, [100, 100], 1, false), Pop(0), Shared(RUNS, popping, [100], 1, false));
    es := es + [Pop(0)];
  }

  lemma BothPop() returns (es: seq<Event>)
    ensures RawExec(Init(2), es) == Some(Shared(RETURNED, RUNS, [], 1, true))
  {
    hide RawExec;
    var s, popping := Init(2), NEW_PROC.(pc := Popping);
    es := OnePops();
    RawThen(s, es, Shared(RUNS, popping, [100], 1, false), Return(0), Shared(RETURNED, popping, [100], 1, true));
    es := es + [Return(0)];
    RawThen(s, es, Shared(RETURNED, popping, [100], 1, true), Pop(1), Shared(RETURNED, RUNS, [], 1, true));
    es := es + [Pop(1)];
  }

  /** ... or both finish it: one runs it to its end, the other resumes it in the loop behind
      that end, and the second fetch_sub wraps the counter around. */
  lemma WitnessWrap() returns (es: seq<Event>)
    ensures RawExec(Init(2), es) ==
      Some(Shared(NEW_PROC.(pc := Freeing(100)), NEW_PROC.(pc := Freeing(100)), [], 18446744073709551615, true))
  {
    hide RawExec;
    var s, f := Init(2), NEW_PROC.(pc := Freeing(100));
    var q := RETURNED;
    es := BothPop();
    RawThen(s, es, Shared(q, RUNS, [], 1, true), Trail(1), Shared(q, q, [], 1, true));
    es := es + [Trail(1)];
    RawThen(s, es, Shared(q, q, [], 1, true), Handle(0), Shared(f, q, [], 0, true));
    es := es + [Handle(0)];
    RawThen(s, es, Shared(f, q, [], 0, true), Handle(1), Shared(f, f, [], 18446744073709551615, true));
    es := es + [Handle(1)];
  }
}
