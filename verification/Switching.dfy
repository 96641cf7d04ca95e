/** Contexts that are loaded and saved. A coroutine's context lives in its box; resuming it
    copies the context to the processor, which then works on the copy, and the switch back
    to main_coro writes it to the box of whatever cur_running names. Nothing here stops two
    processors from loading the same context: that this never happens, and that no stale
    context is ever loaded, is what the protocol has to ensure. */
module Switching {
  import opened Basics
  import opened Protocol
  import opened Ownership
  import opened Invariant
  import opened LifeCycle
  import opened Fairness
  import opened Programs
  import opened Traces

  /** `saved` is indexed by birth number, `loaded` by processor. */
  datatype Machine = Machine(
    sys: Sys, saved: seq<Ctx>, loaded: seq<Option<Ctx>>, locked: bool, data: int, trace: seq<Entry>)

  function Startup(n: nat, data: int): Machine {
    Machine(Init(n), [], seq(n, _ => None), false, data, [])
  }

  predicate InCodeAt(pc: Pc) {
    pc.Executing? || pc.Counted? || pc.InWait?
  }

  /** Processor i is in the code of a coroutine, by the context that it has loaded. */
  predicate Active(m: Machine, i: nat) {
    i < |m.sys.procs| && i < |m.loaded| && m.loaded[i].Some? &&
    var pc, c := m.sys.procs[i].pc, m.loaded[i].value;
    InCodeAt(pc) && pc.hdl in m.sys.heap && !m.sys.heap[pc.hdl].returned && m.sys.heap[pc.hdl].id < |m.saved| &&
    c.k <= |c.script| && (pc.Counted? ==> c.k < |c.script| && c.script[c.k].Spawn?)
  }

  function LocalStep(m: Machine, mv: Move): Step
    requires mv.User? && Active(m, mv.i)
  {
    Behave(m.loaded[mv.i].value, m.sys.procs[mv.i], m.locked, m.data, mv)
  }

  function Cause(m: Machine, mv: Move): Option<Event>
    requires mv.User? ==> Active(m, mv.i)
  {
    match mv
    case Kernel(e) => Some(e)
    case Launch(i, ptr, stack, _) => Some(TopCreate(i, ptr, stack))
    case User(_, _, _, _) => LocalStep(m, mv).event
  }

  /** The box of h, and with it the context of its coroutine, exists. */
  predicate Boxed(m: Machine, h: Ptr) {
    h in m.sys.heap && m.sys.heap[h].id < |m.saved|
  }

  /** As for shared contexts; a switch needs the box that it reads or writes. */
  predicate CanSwitch(m: Machine, mv: Move) {
    && (mv.Kernel? ==> IsKernel(mv.e))
    && (mv.User? ==> Active(m, mv.i))
    && (Cause(m, mv).Some? ==> Legal(m.sys, Cause(m, mv).value))
    && (mv.Kernel? && ResumedBy(m.sys, mv.e).Some? ==> mv.e.i < |m.loaded| && Boxed(m, ResumedBy(m.sys, mv.e).value))
    && (mv.User? && m.sys.procs[mv.i].curRunning.Some? ==> Boxed(m, m.sys.procs[mv.i].curRunning.value))
  }

  function After(m: Machine, mv: Move): Sys
    requires CanSwitch(m, mv)
  {
    if Cause(m, mv).Some? then Apply(m.sys, Cause(m, mv).value) else m.sys
  }

  /** The context after a step: written back by a switch, kept by the processor otherwise.
      Without a running coroutine yield_with does not switch. */
  predicate SwitchesBack(m: Machine, mv: Move)
    requires mv.User? && Active(m, mv.i)
  {
    var e := LocalStep(m, mv).event;
    e.Some? && YieldOf(e.value).Some? && m.sys.procs[mv.i].curRunning.Some?
  }

  function SavedAfter(m: Machine, mv: Move): seq<Ctx>
    requires mv.User? && CanSwitch(m, mv)
  {
    if SwitchesBack(m, mv) then
      m.saved[m.sys.heap[m.sys.procs[mv.i].curRunning.value].id := LocalStep(m, mv).ctx]
    else m.saved
  }

  /** The context of the child that a step creates. */
  function Child(m: Machine, i: nat): seq<Ctx>
    requires Active(m, i)
  {
    var c := m.loaded[i].value;
    if m.sys.procs[i].pc.Counted? then [NewCtx(c.script[c.k].body)] else []
  }

  function Switch(m: Machine, mv: Move): Machine
    requires CanSwitch(m, mv)
  {
    match mv
    case Kernel(e) =>
      var r := ResumedBy(m.sys, e);
      m.(sys := After(m, mv),
         loaded := if r.Some? then m.loaded[e.i := Some(m.saved[m.sys.heap[r.value].id])] else m.loaded)
    case Launch(_, _, _, script) =>
      m.(sys := After(m, mv), saved := m.saved + [NewCtx(script)], trace := m.trace + [Root(script)])
    case User(i, _, _, _) =>
      var c, st := m.loaded[i].value, LocalStep(m, mv);
      Machine(After(m, mv), SavedAfter(m, mv) + Child(m, i),
              m.loaded[i := if SwitchesBack(m, mv) then None else Some(st.ctx)], st.locked, st.data,
              m.trace +
                if st.done && c.k < |c.script| then [Deed(m.sys.heap[m.sys.procs[i].pc.hdl].id, c, st.ctx)] else [])
  }

  function Operate(m: Machine, ms: seq<Move>): Option<Machine> {
    if ms == [] then Some(m) else
      match Operate(m, ms[..|ms| - 1])
      case None => None
      case Some(v) => if CanSwitch(v, ms[|ms| - 1]) then Some(Switch(v, ms[|ms| - 1])) else None
  }

  // ---- agreement with the shared continuations of Programs -----------------------------

  /** Processor i is in the code of coroutine number id. */
  predicate RunsId(s: Sys, i: nat, id: nat) {
    i < |s.procs| && InCodeAt(s.procs[i].pc) && s.procs[i].pc.hdl in s.heap && s.heap[s.procs[i].pc.hdl].id == id
  }

  /** What a running coroutine has loaded is its continuation, and so is what any other
      coroutine has saved; the saved context of a running coroutine may be stale. */
  ghost predicate Agrees(m: Machine, w: World) {
    && m.sys == w.sys && m.locked == w.locked && m.data == w.data && m.trace == w.trace
    && |m.saved| == |w.ctxs| && |m.loaded| == |w.sys.procs|
    && Fresh(w.sys, m.saved, w.ctxs) && Loaded(w.sys, m.loaded, w.ctxs)
  }

  ghost predicate Fresh(s: Sys, saved: seq<Ctx>, ctxs: seq<Ctx>) {
    |saved| == |ctxs| &&
    forall id :: 0 <= id < |ctxs| && (forall i :: !RunsId(s, i, id)) ==> saved[id] == ctxs[id]
  }

  ghost predicate Loaded(s: Sys, loaded: seq<Option<Ctx>>, ctxs: seq<Ctx>) {
    |loaded| == |s.procs| &&
    forall i, id :: 0 <= i < |s.procs| && 0 <= id < |ctxs| && RunsId(s, i, id) ==> loaded[i] == Some(ctxs[id])
  }

  lemma SameStep(m: Machine, w: World, i: nat)
    requires Agrees(m, w)
    ensures Active(m, i) <==> InUser(w, i)
    ensures InUser(w, i) ==> m.loaded[i].value == w.ctxs[RunId(w, i)]
  {
    if i < |w.sys.procs| && InCodeAt(w.sys.procs[i].pc) && w.sys.procs[i].pc.hdl in w.sys.heap {
      assert RunsId(w.sys, i, w.sys.heap[w.sys.procs[i].pc.hdl].id);
    }
  }

  lemma SameCause(m: Machine, w: World, mv: Move)
    requires Agrees(m, w) && (mv.User? ==> InUser(w, mv.i))
    ensures mv.User? ==> Active(m, mv.i) && LocalStep(m, mv) == StepOf(w, mv)
    ensures Cause(m, mv) == EventOf(w, mv)
  {
    if mv.User? {
      SameStep(m, w, mv.i);
    }
  }

  /** What a processor resumes is live and nobody's to run yet. */
  lemma ResumedIsFree(s: Sys, pl: map<Ptr, Place>, e: Event, j: nat)
    requires Placed(s, pl) && Registered(s) && Enabled(s, e) && ResumedBy(s, e).Some?
    ensures ResumedBy(s, e).value in s.heap
    ensures !RunsId(s, j, s.heap[ResumedBy(s, e).value].id)
  {
    QueuePlaced(s, pl);
    assert ProcPlaced(s.procs[e.i], e.i, pl);
    var h := ResumedBy(s, e).value;
    assert h in pl && !pl[h].Hand? && !pl[h].Parked?;
    if RunsId(s, j, s.heap[h].id) {
      HdlHome(s, pl, j);
    }
  }

  /** The premises that a switch adds hold in every good state. */
  lemma ResumedIsBoxed(m: Machine, w: World, e: Event)
    requires Agrees(m, w) && Good(w) && Enabled(w.sys, e) && ResumedBy(w.sys, e).Some?
    ensures e.i < |m.loaded| && Boxed(m, ResumedBy(w.sys, e).value)
  {
    var pl :| Inv(w.sys, pl);
    ResumedIsFree(w.sys, pl, e, 0);
    BoxedIfLive(w.sys, |m.saved|, ResumedBy(w.sys, e).value);
  }

  lemma BoxedIfLive(s: Sys, boxes: nat, h: Ptr)
    requires Registered(s) && boxes == |s.births| && h in s.heap
    ensures s.heap[h].id < boxes
  {
  }

  lemma RunnerIsBoxed(m: Machine, w: World, i: nat)
    requires Agrees(m, w) && Good(w) && InUser(w, i)
    ensures w.sys.procs[i].curRunning == Some(w.sys.procs[i].pc.hdl) && Boxed(m, w.sys.procs[i].pc.hdl)
  {
    var pl :| Inv(w.sys, pl);
    CurrentRuns(w.sys.procs[i], w.sys.heap);
  }

  lemma CurrentRuns(p: Proc, heap: map<Ptr, Coroutine>)
    requires Control(p, heap) && InCodeAt(p.pc)
    ensures p.curRunning == Some(p.pc.hdl)
  {
  }

  lemma SameMoves(m: Machine, w: World, mv: Move)
    requires Agrees(m, w) && Good(w)
    ensures CanSwitch(m, mv) <==> CanMove(w, mv)
  {
    if mv.User? {
      SameStep(m, w, mv.i);
    }
    if mv.User? ==> InUser(w, mv.i) {
      SameCause(m, w, mv);
      if mv.User? {
        RunnerIsBoxed(m, w, mv.i);
      } else if CanMove(w, mv) && mv.Kernel? && ResumedBy(w.sys, mv.e).Some? {
        ResumedIsBoxed(m, w, mv.e);
      }
    }
  }

  /** Other processors go on running what they run. */
  lemma OthersRun(s: Sys, pl: map<Ptr, Place>, e: Event, j: nat, id: nat)
    requires Placed(s, pl) && Legal(s, e) && j != e.i
    ensures RunsId(Apply(s, e), j, id) <==> RunsId(s, j, id)
  {
    hide Registered, NoDup, Control, Apply;
    if j < |s.procs| && InCodeAt(s.procs[j].pc) {
      HdlHome(s, pl, j);
      if HasHdl(s.procs[e.i].pc) {
        HdlHome(s, pl, e.i);
      }
      OtherBoxStays(s, e, s.procs[j].pc.hdl);
    }
  }

  /** An event keeps every box but the one at hand, and every number. */
  lemma OtherBoxStays(s: Sys, e: Event, h: Ptr)
    requires Legal(s, e) && h in s.heap && (HasHdl(s.procs[e.i].pc) ==> h != s.procs[e.i].pc.hdl)
    ensures h in Apply(s, e).heap && Apply(s, e).heap[h] == s.heap[h]
  {
    HeapStep(s, e);
  }

  lemma KernelIsOutside(s: Sys, e: Event, id: nat)
    requires Enabled(s, e) && (IsKernel(e) || e.TopCreate?)
    ensures !RunsId(s, e.i, id)
  {
  }

  /** An event of the scheduler, or a launch, makes its processor run what it resumes. */
  lemma KernelRuns(s: Sys, e: Event, id: nat)
    requires Legal(s, e) && (IsKernel(e) || e.TopCreate?)
    ensures RunsId(Apply(s, e), e.i, id) <==>
      ResumedBy(s, e).Some? && ResumedBy(s, e).value in s.heap && s.heap[ResumedBy(s, e).value].id == id
  {
  }

  lemma KernelAgrees(m: Machine, w: World, pl: map<Ptr, Place>, mv: Move)
    requires Agrees(m, w) && Inv(w.sys, pl) && Shaped(w) && CanMove(w, mv) && CanSwitch(m, mv) && mv.Kernel?
    ensures Agrees(Switch(m, mv), Perform(w, mv))
  {
    var s, e, m', w' := w.sys, mv.e, Switch(m, mv), Perform(w, mv);
    assert Registered(s);
    forall id | 0 <= id < |w'.ctxs| && forall i :: !RunsId(w'.sys, i, id) ensures m'.saved[id] == w'.ctxs[id] {
      forall i ensures !RunsId(s, i, id) {
        if i == e.i { KernelIsOutside(s, e, id); } else { OthersRun(s, pl, e, i, id); assert !RunsId(w'.sys, i, id); }
      }
    }
    forall i, id | 0 <= i < |w'.sys.procs| && 0 <= id < |w'.ctxs| && RunsId(w'.sys, i, id)
      ensures m'.loaded[i] == Some(w'.ctxs[id])
    {
      if i == e.i {
        KernelRuns(s, e, id);
        forall j ensures !RunsId(s, j, id) {
          ResumedIsFree(s, pl, e, j);
        }
      } else {
        OthersRun(s, pl, e, i, id);
      }
    }
  }

  /** Nobody runs anything before the top-level coroutine does. */
  lemma LaunchFindsNone(s: Sys, pl: map<Ptr, Place>, e: Event, j: nat, id: nat)
    requires Inv(s, pl) && Legal(s, e) && e.TopCreate?
    ensures !RunsId(Apply(s, e), j, id)
  {
    if j != e.i {
      OthersRun(s, pl, e, j, id);
      assert s.heap == map[];
    }
  }

  lemma LaunchAgrees(m: Machine, w: World, pl: map<Ptr, Place>, mv: Move)
    requires Agrees(m, w) && Inv(w.sys, pl) && Shaped(w) && CanMove(w, mv) && CanSwitch(m, mv) && mv.Launch?
    ensures Agrees(Switch(m, mv), Perform(w, mv))
  {
    hide Behave, Apply;
    var s, e := w.sys, EventOf(w, mv).value;
    forall j: nat, id: nat ensures !RunsId(Perform(w, mv).sys, j, id) {
      LaunchFindsNone(s, pl, e, j, id);
    }
    forall id: nat | id < |w.ctxs| ensures m.saved[id] == w.ctxs[id] {
      forall j: nat ensures !RunsId(s, j, id) {
        assert s.heap == map[];
      }
    }
  }

  /** A step of a coroutine keeps it on its processor unless it yields. */
  lemma UserRuns(s: Sys, e: Event, id: nat)
    requires Legal(s, e) && InCode(e) && s.procs[e.i].curRunning.Some?
    ensures RunsId(Apply(s, e), e.i, id) <==> YieldOf(e).None? && RunsId(s, e.i, id)
  {
  }

  /** The contexts after a step of coroutine number id on processor i, with its processor
      still in its code or not. */
  lemma ContextsAfter(m: Machine, w: World, s': Sys, i: nat, id: nat, c: Ctx, children: seq<Ctx>, back: bool)
    requires Agrees(m, w) && RunsId(w.sys, i, id) && id < |w.ctxs| && |s'.procs| == |w.sys.procs|
    requires forall j: nat, x: nat :: RunsId(s', j, x) ==> x < |w.ctxs|
    requires forall j: nat, x: nat :: j != i ==> (RunsId(s', j, x) <==> RunsId(w.sys, j, x))
    requires forall x: nat :: RunsId(s', i, x) <==> !back && x == id
    requires forall j: nat :: RunsId(w.sys, j, id) ==> j == i
    ensures Fresh(s', (if back then m.saved[id := c] else m.saved) + children, w.ctxs[id := c] + children)
    ensures Loaded(s', m.loaded[i := if back then None else Some(c)], w.ctxs[id := c] + children)
  {
    var saved', ctxs' := (if back then m.saved[id := c] else m.saved) + children, w.ctxs[id := c] + children;
    forall x | 0 <= x < |ctxs'| && forall j :: !RunsId(s', j, x) ensures saved'[x] == ctxs'[x] {
      if x == id {
        assert !back ==> RunsId(s', i, id);
      } else if x < |w.ctxs| {
        forall j ensures !RunsId(w.sys, j, x) {
          assert !RunsId(s', j, x);
        }
      }
    }
  }

  /** The same step on either side, part by part. */
  lemma UserSwitches(m: Machine, w: World, mv: Move)
    requires Agrees(m, w) && CanMove(w, mv) && CanSwitch(m, mv) && mv.User?
    requires w.sys.procs[mv.i].curRunning == Some(w.sys.procs[mv.i].pc.hdl)
    ensures var m', v, id, st := Switch(m, mv), Perform(w, mv), RunId(w, mv.i), StepOf(w, mv);
      var back := st.event.Some? && YieldOf(st.event.value).Some?;
      && m'.sys == v.sys && m'.locked == v.locked && m'.data == v.data && m'.trace == v.trace
      && m'.saved == (if back then m.saved[id := st.ctx] else m.saved) + Newborn(w, mv)
      && m'.loaded == m.loaded[mv.i := if back then None else Some(st.ctx)]
      && v.ctxs == w.ctxs[id := st.ctx] + Newborn(w, mv)
  {
    hide Behave, Apply;
    SameCause(m, w, mv);
    SameStep(m, w, mv.i);
  }

  /** Who runs what after a step of coroutine number id on processor i. */
  lemma RunsAfter(w: World, pl: map<Ptr, Place>, mv: Move)
    requires Inv(w.sys, pl) && Good(w) && CanMove(w, mv) && mv.User?
    ensures var s, s', i, id, e := w.sys, Perform(w, mv).sys, mv.i, RunId(w, mv.i), EventOf(w, mv);
      var back := e.Some? && YieldOf(e.value).Some?;
      && |s'.procs| == |s.procs| && RunsId(s, i, id)
      && (forall j: nat, x: nat :: RunsId(s', j, x) ==> x < |w.ctxs|)
      && (forall j: nat, x: nat :: j != i ==> (RunsId(s', j, x) <==> RunsId(s, j, x)))
      && (forall x: nat :: RunsId(s', i, x) <==> !back && x == id)
      && (forall j: nat :: RunsId(s, j, id) ==> j == i)
  {
    hide Behave, Apply, Placed, Booting, Accounted, Controlled;
    var s, i, id := w.sys, mv.i, RunId(w, mv.i);
    RunnerIsAlive(w, i);
    PerformRefines(w, mv);
    forall j: nat, x: nat | RunsId(s, j, x) ensures x < |w.ctxs| {
      KnownId(s, |w.ctxs|, j, x);
    }
    forall j: nat, x: nat
      ensures RunsId(Perform(w, mv).sys, j, x) <==>
        if j == i then x == id && !(EventOf(w, mv).Some? && YieldOf(EventOf(w, mv).value).Some?) else RunsId(s, j, x)
    {
      UserRunsAfter(w, pl, mv, j, x);
    }
    forall j: nat | RunsId(s, j, id) ensures j == i {
      if j != i { RunIdsDiffer(s, pl, i, j); }
    }
  }

  lemma KnownId(s: Sys, n: nat, j: nat, x: nat)
    requires Registered(s) && n == |s.births| && RunsId(s, j, x)
    ensures x < n
  {
  }

  lemma UserAgrees(m: Machine, w: World, pl: map<Ptr, Place>, mv: Move)
    requires Agrees(m, w) && Inv(w.sys, pl) && Good(w) && CanMove(w, mv) && CanSwitch(m, mv) && mv.User?
    ensures Agrees(Switch(m, mv), Perform(w, mv))
  {
    hide Behave, Apply;
    RunnerIsBoxed(m, w, mv.i);
    UserSwitches(m, w, mv);
    RunsAfter(w, pl, mv);
    var st := StepOf(w, mv);
    ContextsAfter(m, w, Perform(w, mv).sys, mv.i, RunId(w, mv.i), st.ctx, Newborn(w, mv),
                  st.event.Some? && YieldOf(st.event.value).Some?);
  }

  lemma RunnerIsAlive(w: World, i: nat)
    requires Good(w) && InUser(w, i)
    ensures Sound(w.ctxs[RunId(w, i)]) && !w.ctxs[RunId(w, i)].ended
  {
    var pl :| Inv(w.sys, pl);
    assert Registered(w.sys);
    RunnerNotOver(w, i);
  }

  lemma UserRunsAfter(w: World, pl: map<Ptr, Place>, mv: Move, j: nat, x: nat)
    requires Inv(w.sys, pl) && CanMove(w, mv) && mv.User?
    requires Sound(w.ctxs[RunId(w, mv.i)]) && !w.ctxs[RunId(w, mv.i)].ended
    ensures var e := EventOf(w, mv);
      RunsId(Perform(w, mv).sys, j, x) <==>
        if j == mv.i then x == RunId(w, mv.i) && !(e.Some? && YieldOf(e.value).Some?) else RunsId(w.sys, j, x)
  {
    hide Behave, Apply, Registered, Placed, Booting, Accounted;
    var s, e := w.sys, EventOf(w, mv);
    BehaveEvents(w.ctxs[RunId(w, mv.i)], s.procs[mv.i], w.locked, w.data, mv);
    PerformRefines(w, mv);
    assert Control(s.procs[mv.i], s.heap);
    if e.Some? {
      if j == mv.i {
        UserRuns(s, e.value, x);
      } else {
        OthersRun(s, pl, e.value, j, x);
      }
    }
  }

  lemma StepAgrees(m: Machine, w: World, mv: Move)
    requires Agrees(m, w) && Good(w)
    ensures CanSwitch(m, mv) <==> CanMove(w, mv)
    ensures CanMove(w, mv) ==> Agrees(Switch(m, mv), Perform(w, mv))
  {
    SameMoves(m, w, mv);
    if CanMove(w, mv) {
      var pl :| Inv(w.sys, pl);
      match mv
      case Kernel(_) => KernelAgrees(m, w, pl, mv);
      case Launch(_, _, _, _) => LaunchAgrees(m, w, pl, mv);
      case User(_, _, _, _) => UserAgrees(m, w, pl, mv);
    }
  }

  /** Contexts that are loaded and saved do exactly what shared continuations do, for any
      number of processors: the same moves are possible, and the same state results. So no
      processor ever loads a stale context, or one that another processor has loaded. */
  lemma {:induction false} OperateIffPlay(n: nat, data: int, ms: seq<Move>)
    ensures Operate(Startup(n, data), ms).Some? <==> Play(Boot(n, data), ms).Some?
    ensures Play(Boot(n, data), ms).Some? ==> Agrees(Operate(Startup(n, data), ms).value, Play(Boot(n, data), ms).value)
  {
    if ms != [] {
      var init := ms[..|ms| - 1];
      OperateIffPlay(n, data, init);
      if Play(Boot(n, data), init).Some? {
        PlayGood(n, data, init);
        StepAgrees(Operate(Startup(n, data), init).value, Play(Boot(n, data), init).value, ms[|ms| - 1]);
      }
    }
  }

  /** Trace projection: in every run, on any number of processors, the actions of each
      coroutine in the global trace are a prefix of its own script, in order, although its
      context is loaded and saved with every switch and by whichever processor runs it:
      none is skipped, repeated or reordered. */
  lemma ActionsInOrder(n: nat, data: int, ms: seq<Move>, m: Machine, id: nat)
    requires Operate(Startup(n, data), ms) == Some(m) && id < |m.saved|
    ensures |Born(m.trace)| == |m.saved| && Projection(m.trace, id) <= Born(m.trace)[id]
  {
    OperateIffPlay(n, data, ms);
    var w := Play(Boot(n, data), ms).value;
    ScriptsInOrder(n, data, ms, w, id);
    assert |Scripts(w.ctxs)| == |w.ctxs| && Scripts(w.ctxs)[id] == w.ctxs[id].script;
  }
}
