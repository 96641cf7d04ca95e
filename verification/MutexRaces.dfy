/** Where the mutex does not exclude. A release that is not the releaser's own leaves a live
    guard behind a clear flag: on any number of processors after a failed lock or try_lock,
    and on two processors without any failure, because Guard::drop repeats its
    compare_and_swap. */
module MutexRaces {
  import opened Basics
  import opened Protocol
  import opened Programs
  import opened MutexLaws
  import opened Moves

  lemma PlayTwice(w: World, m1: Move, m2: Move)
    requires CanMove(w, m1) && CanMove(Perform(w, m1), m2)
    ensures Play(w, [m1, m2]) == Some(Perform(Perform(w, m1), m2))
  {
    assert [] + [m1] == [m1] && [m1] + [m2] == [m1, m2];
    PlaySnoc(w, [], w, m1);
    PlaySnoc(w, [m1], Perform(w, m1), m2);
  }

  /** Unwrapping the error of a failed lock or try_lock releases the lock, although the guard
      in the error was never acquired: the holder's guard stays live behind a clear flag. */
  lemma FailureReleases(w: World, i: nat)
    requires AtFailure(w, i) && w.locked && Exclusive(w)
    ensures Play(w, [User(i, 0, 0, 0), User(i, 0, 0, 0)]).Some?
    ensures var v := Play(w, [User(i, 0, 0, 0), User(i, 0, 0, 0)]).value;
      !v.locked && !Exclusive(v) && exists h: nat :: Holder(v.ctxs, h)
  {
    var m := User(i, 0, 0, 0);
    assert CanMove(w, m) && Steals(Perform(w, m), m);
    ExclusiveIff(w, m);
    ExclusiveIff(Perform(w, m), m);
    PlayTwice(w, m, m);
    var h: nat :| Holder(w.ctxs, h);
    assert Holder(Perform(Perform(w, m), m).ctxs, h);
  }

  /** Coroutine number id executes on processor i and stands at action a. */
  predicate StandsAt(w: World, i: nat, id: nat, a: Action) {
    InUser(w, i) && w.sys.procs[i].pc.Executing? && RunId(w, i) == id &&
    var c := w.ctxs[id];
    !c.dropping && !c.unwinding && c.k < |c.script| && c.script[c.k] == a && c.tries < POISON_RETRY_COUNT
  }

  /** The first compare_and_swap of Guard::drop. */
  lemma Releases(w: World, i: nat, a: nat)
    requires StandsAt(w, i, a, Unlock) && w.locked && w.ctxs[a].guards > 0 && Exclusive(w)
    ensures var m := User(i, 0, 0, 0); var c := w.ctxs[a];
      CanMove(w, m) && Exclusive(Perform(w, m)) &&
      Perform(w, m) == World(
        w.sys, w.ctxs[a := c.(k := c.k + 1, guards := c.guards - 1, loaded := false, dropping := true)],
        false, w.data, w.trace + [Did(a, Unlock, false)])
  {
    var m, c := User(i, 0, 0, 0), w.ctxs[a];
    assert w.ctxs[a := StepOf(w, m).ctx] + [] == w.ctxs[a := StepOf(w, m).ctx];
    ExclusiveIff(w, m);
  }

  lemma Acquires(w: World, j: nat, b: nat)
    requires StandsAt(w, j, b, Lock) && !w.locked && Exclusive(w)
    ensures var m := User(j, 0, 0, 0); var c := w.ctxs[b];
      CanMove(w, m) && Exclusive(Perform(w, m)) &&
      Perform(w, m) == World(
        w.sys, w.ctxs[b := c.(k := c.k + 1, tries := 0, guards := c.guards + 1, loaded := false)],
        true, w.data, w.trace + [Did(b, Lock, false)])
  {
    var m, c := User(j, 0, 0, 0), w.ctxs[b];
    assert w.ctxs[b := StepOf(w, m).ctx] + [] == w.ctxs[b := StepOf(w, m).ctx];
    ExclusiveIff(w, m);
  }

  /** The second one, when somebody has locked in between. */
  lemma ReleasesAgain(w: World, i: nat, a: nat, b: nat)
    requires InUser(w, i) && w.sys.procs[i].pc.Executing? && RunId(w, i) == a && w.ctxs[a].dropping
    requires w.locked && Exclusive(w) && a != b && b < |w.ctxs| && w.ctxs[b].guards > 0
    ensures var m := User(i, 0, 0, 0);
      && CanMove(w, m) && !Perform(w, m).locked && !Exclusive(Perform(w, m))
      && Perform(w, m).ctxs == w.ctxs[a := w.ctxs[a].(dropping := true)] && Holder(Perform(w, m).ctxs, b)
  {
    var m := User(i, 0, 0, 0);
    GuardBound(w, b);
    assert w.ctxs[a := StepOf(w, m).ctx] + [] == w.ctxs[a := StepOf(w, m).ctx];
    assert Steals(w, m);
    ExclusiveIff(w, m);
  }

  /** Whenever one processor is about to drop a guard while another is about to lock, three
      steps break mutual exclusion although no lock and no try_lock has failed: release,
      acquire, and the repeated compare_and_swap of the first. */
  lemma UnlockRaces(w: World, i: nat, j: nat, a: nat, b: nat)
    requires a != b && StandsAt(w, i, a, Unlock) && StandsAt(w, j, b, Lock)
    requires w.locked && w.ctxs[a].guards > 0 && Exclusive(w)
    ensures var ms := [User(i, 0, 0, 0), User(j, 0, 0, 0), User(i, 0, 0, 0)];
      && Play(w, ms).Some?
      && var v := Play(w, ms).value;
      && !v.locked && Holder(v.ctxs, b) && !Exclusive(v) && |v.ctxs| == |w.ctxs|
      && forall id :: 0 <= id < |w.ctxs| ==> v.ctxs[id].poisoned == w.ctxs[id].poisoned
  {
    hide Behave, Perform, Apply;
    var m1, m2 := User(i, 0, 0, 0), User(j, 0, 0, 0);
    Releases(w, i, a);
    var w1 := Perform(w, m1);
    Acquires(w1, j, b);
    var w2 := Perform(w1, m2);
    ReleasesAgain(w2, i, a, b);
    PlayTwice(w, m1, m2);
    PlaySnoc(w, [m1, m2], w2, m1);
    assert [m1, m2] + [m1] == [m1, m2, m1];
  }

  /** Events of the scheduler, one after the other, as a run of scripts. */
  lemma {:induction false} LiftKernel(w0: World, ms: seq<Move>, w: World, es: seq<Event>) returns (ms': seq<Move>)
    requires Play(w0, ms) == Some(w) && Exec(w.sys, es).Some? && forall k :: 0 <= k < |es| ==> IsKernel(es[k])
    ensures Play(w0, ms') == Some(w.(sys := Exec(w.sys, es).value))
  {
    ms' := ms;
    if es != [] {
      var init, e := es[..|es| - 1], es[|es| - 1];
      ms' := LiftKernel(w0, ms, w, init);
      PlaySnoc(w0, ms', w.(sys := Exec(w.sys, init).value), Kernel(e));
      ms' := ms' + [Kernel(e)];
    }
  }

  // ---- a run in which two processors race: the first script spawns the second, and both
  // ---- lock and unlock once

  const SECOND: seq<Action> := [Lock, Unlock]
  const FIRST: seq<Action> := [Spawn(SECOND), Lock, Unlock]

  const ONE_BORN: map<Ptr, Coroutine> := map[100 := Coroutine(0, 7, false)]
  const BOTH_BORN: map<Ptr, Coroutine> := map[100 := Coroutine(0, 7, false), 200 := Coroutine(1, 8, false)]

  /** Processor 0 has pc, the registers that go with it, and may carry a new coroutine. */
  function Early(pc: Pc, running: Option<Ptr>, spawned: Option<Ptr>): Sys {
    Sys([Proc(pc, running, None, spawned, map[], {}), NEW_PROC], [], 1, ONE_BORN, [100], [], {7})
  }

  function Late(p0: Proc, p1: Proc, queue: seq<Ptr>): Sys {
    Sys([p0, p1], queue, 2, BOTH_BORN, [100, 200], [], {7, 8})
  }

  lemma Then(s: Sys, es: seq<Event>, m: Sys, e: Event, m': Sys)
    requires Exec(s, es) == Some(m) && Legal(m, e) && Same(Apply(m, e), m')
    ensures Exec(s, es + [e]) == Some(m')
  {
    ExecSnoc(s, es, m, e);
  }

  lemma FirstStarts() returns (es: seq<Event>)
    ensures forall k :: 0 <= k < |es| ==> IsKernel(es[k])
    ensures Exec(Early(Outside, None, Some(100)), es) == Some(Early(Executing(100), Some(100), None))
  {
    hide Orderly;
    var s := Early(Outside, None, Some(100));
    var s1, s2 := Early(Popping, None, Some(100)), Early(CheckingSlab, None, Some(100));
    var s3, s4 := Early(CheckingCount, None, Some(100)), Early(Draining, None, Some(100));
    es := [];
    Then(s, es, s, Start(0), s1);
    es := es + [Start(0)];
    Then(s, es, s1, Pop(0), s2);
    es := es + [Pop(0)];
    Then(s, es, s2, CheckSlab(0), s3);
    es := es + [CheckSlab(0)];
    Then(s, es, s3, CheckCount(0), s4);
    es := es + [CheckCount(0)];
    Then(s, es, s4, Drain(0), Early(Executing(100), Some(100), None));
    es := es + [Drain(0)];
  }

  const YIELDED: Proc := Proc(Returned(100), None, Some(Ok(Suspended)), Some(200), map[], {})
  const RUNS_FIRST: Proc := Proc(Executing(100), Some(100), None, None, map[], {})
  const RUNS_SECOND: Proc := Proc(Executing(200), Some(200), None, None, map[], {})

  lemma BothStart() returns (es: seq<Event>)
    ensures forall k :: 0 <= k < |es| ==> IsKernel(es[k])
    ensures Exec(Late(YIELDED, NEW_PROC, []), es) == Some(Late(RUNS_SECOND, RUNS_FIRST, []))
  {
    var s := Late(YIELDED, NEW_PROC, []);
    var p := Proc(Pushing(100, None), None, None, Some(200), map[], {});
    var s1, s2 := Late(p, NEW_PROC, []), Late(p.(pc := Draining), NEW_PROC, [100]);
    var s3, s4 := Late(RUNS_SECOND, NEW_PROC, [100]), Late(RUNS_SECOND, NEW_PROC.(pc := Popping), [100]);
    es := [];
    Then(s, es, s, Handle(0), s1);
    es := es + [Handle(0)];
    Then(s, es, s1, Push(0), s2);
    es := es + [Push(0)];
    Then(s, es, s2, Drain(0), s3);
    es := es + [Drain(0)];
    Then(s, es, s3, Start(1), s4);
    es := es + [Start(1)];
    Then(s, es, s4, Pop(1), Late(RUNS_SECOND, RUNS_FIRST, []));
    es := es + [Pop(1)];
  }

  lemma ThenMove(w0: World, ms: seq<Move>, v: World, m: Move, v': World)
    requires Play(w0, ms) == Some(v) && CanMove(v, m)
    requires Same(Perform(v, m).sys, v'.sys) && Perform(v, m).ctxs == v'.ctxs && Perform(v, m).trace == v'.trace
    requires Perform(v, m).locked == v'.locked && Perform(v, m).data == v'.data
    ensures Play(w0, ms + [m]) == Some(v')
  {
    PlaySnoc(w0, ms, v, m);
  }

  lemma Launched(script: seq<Action>) returns (ms: seq<Move>)
    ensures ms == [Kernel(TopCount(0)), Programs.Move.Launch(0, 100, 7, script)]
    ensures Play(Boot(2, 0), ms) ==
      Some(World(Early(Outside, None, Some(100)), [NewCtx(script)], false, 0, [Root(script)]))
  {
    var w := Boot(2, 0);
    var w1 := World(Sys([NEW_PROC.(pc := TopCounted), NEW_PROC], [], 1, map[], [], [], {}), [], false, 0, []);
    var w2 := World(Early(Outside, None, Some(100)), [NewCtx(script)], false, 0, [Root(script)]);
    ms := [];
    ThenMove(w, ms, w, Kernel(TopCount(0)), w1);
    ms := ms + [Kernel(TopCount(0))];
    ThenMove(w, ms, w1, Programs.Move.Launch(0, 100, 7, script), w2);
    ms := ms + [Programs.Move.Launch(0, 100, 7, script)];
  }

  const COUNTED: Sys :=
    Sys([Proc(Counted(100), Some(100), None, None, map[], {}), NEW_PROC], [], 2, ONE_BORN, [100], [], {7})

  lemma FirstCounts(w0: World, ms: seq<Move>) returns (ms': seq<Move>)
    requires Play(w0, ms) ==
      Some(World(Early(Executing(100), Some(100), None), [NewCtx(FIRST)], false, 0, [Root(FIRST)]))
    ensures Play(w0, ms') == Some(World(COUNTED, [NewCtx(FIRST)], false, 0, [Root(FIRST)]))
  {
    var w := World(Early(Executing(100), Some(100), None), [NewCtx(FIRST)], false, 0, [Root(FIRST)]);
    assert StepOf(w, STEP) == Step(NewCtx(FIRST), false, Some(SpawnCount(0)), false, 0);
    ByEvent(w, STEP, SpawnCount(0), 0, StepOf(w, STEP));
    ThenMove(w0, ms, w, STEP, World(COUNTED, [NewCtx(FIRST)], false, 0, [Root(FIRST)]));
    ms' := ms + [STEP];
  }

  lemma FirstSpawns(w0: World, ms: seq<Move>) returns (ms': seq<Move>)
    requires Play(w0, ms) == Some(World(COUNTED, [NewCtx(FIRST)], false, 0, [Root(FIRST)]))
    ensures Play(w0, ms') == Some(World(Late(YIELDED, NEW_PROC, []), [NewCtx(FIRST).(k := 1), NewCtx(SECOND)], false, 0,
                                        [Root(FIRST), Did(0, Spawn(SECOND), false)]))
  {
    var w := World(COUNTED, [NewCtx(FIRST)], false, 0, [Root(FIRST)]);
    var v := World(Late(YIELDED, NEW_PROC, []), [NewCtx(FIRST).(k := 1), NewCtx(SECOND)], false, 0,
                   [Root(FIRST), Did(0, Spawn(SECOND), false)]);
    FirstCreates();
    ThenMove(w0, ms, w, User(0, 200, 8, 0), v);
    ms' := ms + [User(0, 200, 8, 0)];
  }

  lemma FirstCreates()
    ensures var w, m := World(COUNTED, [NewCtx(FIRST)], false, 0, [Root(FIRST)]), User(0, 200, 8, 0);
      && CanMove(w, m) && Same(Perform(w, m).sys, Late(YIELDED, NEW_PROC, []))
      && Perform(w, m).ctxs == [NewCtx(FIRST).(k := 1), NewCtx(SECOND)] && Perform(w, m).locked == false
      && Perform(w, m).trace == [Root(FIRST), Did(0, Spawn(SECOND), false)] && Perform(w, m).data == 0
  {
    var w, m := World(COUNTED, [NewCtx(FIRST)], false, 0, [Root(FIRST)]), User(0, 200, 8, 0);
    assert InUser(w, 0) && RunId(w, 0) == 0;
    assert StepOf(w, m) == Step(NewCtx(FIRST).(k := 1), true, Some(SpawnCreate(0, 200, 8)), false, 0);
    assert {} - {8} == {};
  }

  /** The race can be reached with two processors, from the start and with no failed lock. */
  lemma WitnessRace() returns (ms: seq<Move>)
    ensures Play(Boot(2, 0), ms).Some?
    ensures var w := Play(Boot(2, 0), ms).value;
      var race := [User(1, 0, 0, 0), User(0, 0, 0, 0), User(1, 0, 0, 0)];
      && Exclusive(w) && NonePoisoned(w)
      && Play(w, race).Some? && !Exclusive(Play(w, race).value) && NonePoisoned(Play(w, race).value)
  {
    ms := Launched(FIRST);
    var es := FirstStarts();
    ms := LiftKernel(Boot(2, 0), ms, Play(Boot(2, 0), ms).value, es);
    ms := FirstCounts(Boot(2, 0), ms);
    ms := FirstSpawns(Boot(2, 0), ms);
    es := BothStart();
    ms := LiftKernel(Boot(2, 0), ms, Play(Boot(2, 0), ms).value, es);
    ms := FirstLocks(Boot(2, 0), ms);
    UnlockRaces(Play(Boot(2, 0), ms).value, 1, 0, 0, 1);
  }

  lemma FirstLocks(w0: World, ms: seq<Move>) returns (ms': seq<Move>)
    requires Play(w0, ms) ==
      Some(World(Late(RUNS_SECOND, RUNS_FIRST, []), [NewCtx(FIRST).(k := 1), NewCtx(SECOND)], false, 0,
                 [Root(FIRST), Did(0, Spawn(SECOND), false)]))
    ensures Play(w0, ms').Some?
    ensures var w := Play(w0, ms').value;
      Exclusive(w) && w.locked && |w.ctxs| == 2 && w.ctxs[0].guards > 0 && NonePoisoned(w) &&
      StandsAt(w, 1, 0, Unlock) && StandsAt(w, 0, 1, Lock)
  {
    var w := Play(w0, ms).value;
    Acquires(w, 1, 0);
    PlaySnoc(w0, ms, w, User(1, 0, 0, 0));
    ms' := ms + [User(1, 0, 0, 0)];
  }
}
