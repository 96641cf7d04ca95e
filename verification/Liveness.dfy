/** Every thread returns. From any reachable state after the launch, under any fair
    scheduler of the operating system and with an event loop that reports somebody when it
    is polled, all processors leave their loops by the break: stolen locks, panics, nested
    spawns and waits included. */
module Liveness {
  import opened Basics
  import opened Protocol
  import opened Ownership
  import opened Invariant
  import opened Safety
  import opened Fairness
  import opened Programs
  import opened Traces
  import opened Work
  import opened Population

  function Mover(m: Move): nat {
    match m
    case Kernel(e) => e.i
    case Launch(i, _, _, _) => i
    case User(i, _, _, _) => i
  }

  /** The batch has a token that somebody waits for. */
  predicate Waking(p: Proc, batch: seq<Token>) {
    exists k :: 0 <= k < |batch| && batch[k] in p.slab
  }

  /** An event after the launch, from an event loop that does not fail and wakes somebody
      whenever it is polled. */
  predicate LivelyEvent(s: Sys, e: Event)
    requires Enabled(s, e)
  {
    !e.TopCount? && !e.TopCreate? && !e.PollError? && (e.Poll? ==> Waking(s.procs[e.i], e.batch))
  }

  predicate Lively(w: World, m: Move) {
    CanMove(w, m) && !m.Launch? && (m.Kernel? ==> LivelyEvent(w.sys, m.e))
  }

  /** The launch is over, no event loop has failed, and who has left found no work. */
  ghost predicate Settled(s: Sys) {
    && (forall i :: 0 <= i < |s.procs| ==> !s.procs[i].pc.TopCounted? && s.procs[i].pc != Exited(false))
    && (SomeExited(s) ==> s.workCount == 0)
  }

  ghost predicate Live(w: World) {
    Good(w) && AllCount(w.ctxs) && Settled(w.sys)
  }

  /** No more coroutines are alive than the queue can hold. */
  predicate Roomy(s: Sys) {
    |s.heap| <= GLOBAL_QUEUE_SIZE
  }

  ghost predicate AllReturned(s: Sys) {
    forall i :: 0 <= i < |s.procs| ==> s.procs[i].pc == Exited(true)
  }

  // ---- what a lively move keeps -----------------------------------------------------------

  lemma SettledStep(s: Sys, pl: map<Ptr, Place>, e: Event)
    requires Inv(s, pl) && Legal(s, e) && LivelyEvent(s, e) && Settled(s)
    ensures Settled(Apply(s, e))
  {
    hide Inv, Apply;
    NoLaunch(s, e);
    ExitedStep(s, e);
    if SomeExited(s) {
      InvKept(s, pl);
      ZeroStep(s, pl, e);
    }
  }

  lemma NoLaunch(s: Sys, e: Event)
    requires Legal(s, e) && LivelyEvent(s, e)
    ensures var pc := Apply(s, e).procs[e.i].pc;
      !pc.TopCounted? && (pc == Exited(false) ==> s.procs[e.i].pc == Exited(false))
  {
  }

  /** The event behind a lively move is lively, and of the same processor. */
  lemma EventIsLively(w: World, m: Move)
    requires Good(w) && Lively(w, m) && EventOf(w, m).Some?
    ensures LivelyEvent(w.sys, EventOf(w, m).value) && EventOf(w, m).value.i == Mover(m)
  {
    if m.User? {
      hide Placed, Controlled, Booting, Accounted, Traced;
      var pl :| Inv(w.sys, pl);
      CodeIsLively(w, m);
    }
  }

  lemma CodeIsLively(w: World, m: Move)
    requires Registered(w.sys) && Shaped(w) && m.User? && CanMove(w, m) && EventOf(w, m).Some?
    ensures LivelyEvent(w.sys, EventOf(w, m).value) && EventOf(w, m).value.i == m.i
  {
    hide Behave, Apply, Registered, Shaped, Sound, AtSpawn, RunsUserCode, Orderly;
    RunnerReady(w, m.i);
    BehaveEvents(w.ctxs[RunId(w, m.i)], w.sys.procs[m.i], w.locked, w.data, m);
  }

  lemma LiveStep(w: World, m: Move)
    requires Live(w) && Lively(w, m)
    ensures Live(Perform(w, m))
    ensures WorkLeft(Perform(w, m)) + (if Works(w, m) then 1 else 0) <= WorkLeft(w)
    ensures |Perform(w, m).sys.procs| == |w.sys.procs|
    ensures forall j :: 0 <= j < |w.sys.procs| && j != Mover(m) ==> Perform(w, m).sys.procs[j] == w.sys.procs[j]
  {
    hide Behave, Perform, Settled, Inv;
    GoodStep(w, m);
    MoveSaves(w, m);
    PerformRefines(w, m);
    if EventOf(w, m).Some? {
      var pl :| Inv(w.sys, pl);
      EventIsLively(w, m);
      SettledStep(w.sys, pl, EventOf(w, m).value);
    }
  }

  // ---- one processor comes to rest, or work gets done -------------------------------------

  /** Looking for work, with nothing at hand. */
  predicate Hollow(p: Proc) {
    p.pc.Exited? ||
    ((p.pc.Draining? || p.pc.Popping? || p.pc.CheckingSlab? || p.pc.CheckingCount?) && p.newSpawned.None? &&
      p.slab == map[])
  }

  /** How far a processor is from being hollow, or from doing work. */
  function Class(p: Proc): nat {
    match p.pc
    case Returned(_) => 12
    case Freeing(_) => 11
    case Outside => 10
    case Pushing(_, rest) => if rest.None? then 9 else 8
    case Dispatching(batch) => if Waking(p, batch) then 1 else 8
    case Draining => if p.newSpawned.Some? then 0 else 7
    case Popping => 6
    case CheckingSlab => 5
    case Polling => 4
    case CheckingCount => 3
    case _ => 13
  }

  function Len(p: Proc): nat {
    match p.pc
    case Dispatching(batch) => 2 * |batch|
    case Pushing(_, Some(rest)) => 2 * |rest| + 1
    case _ => 0
  }

  predicate Nearer(p: Proc, p': Proc) {
    Hollow(p') || Class(p') < Class(p) || (Class(p') == Class(p) && Len(p') < Len(p))
  }

  lemma LoopNearer(s: Sys, e: Event)
    requires Legal(s, e) && LivelyEvent(s, e) && Control(s.procs[e.i], s.heap) && !Advances(s, e)
    requires e.Start? || e.Pop? || e.CheckSlab? || e.Poll? || e.CheckCount?
    ensures Nearer(s.procs[e.i], Apply(s, e).procs[e.i])
    ensures Hollow(s.procs[e.i]) ==> Hollow(Apply(s, e).procs[e.i])
  {
  }

  lemma GiveNearer(s: Sys, e: Event)
    requires Legal(s, e) && Control(s.procs[e.i], s.heap) && !Advances(s, e)
    requires e.Push? ==> |s.queue| < GLOBAL_QUEUE_SIZE
    requires e.Push? || e.Drain? || e.Handle? || e.Free?
    ensures Nearer(s.procs[e.i], Apply(s, e).procs[e.i])
    ensures Hollow(s.procs[e.i]) ==> Hollow(Apply(s, e).procs[e.i])
  {
  }

  lemma DispatchNearer(s: Sys, i: nat)
    requires Legal(s, Dispatch(i)) && Control(s.procs[i], s.heap) && !Advances(s, Dispatch(i))
    ensures Nearer(s.procs[i], Apply(s, Dispatch(i)).procs[i]) && !Hollow(s.procs[i])
  {
    var p, p' := s.procs[i], Apply(s, Dispatch(i)).procs[i];
    if p.pc.batch != [] && Waking(p, p.pc.batch) {
      var k :| 0 <= k < |p.pc.batch| && p.pc.batch[k] in p.slab;
      assert p'.pc.batch[k - 1] == p.pc.batch[k];
    } else if p.pc.batch != [] {
      assert forall k :: 0 <= k < |p'.pc.batch| ==> p'.pc.batch[k] == p.pc.batch[k + 1];
    }
  }

  /** A move that does no work brings its processor nearer to rest, and keeps it at rest. */
  lemma MoveNearer(w: World, m: Move)
    requires Live(w) && Roomy(w.sys) && Lively(w, m) && !Works(w, m)
    ensures m.Kernel? && !Advances(w.sys, m.e) && m.e.i < |w.sys.procs| == |Perform(w, m).sys.procs|
    ensures Perform(w, m).sys == Apply(w.sys, m.e)
    ensures Nearer(w.sys.procs[m.e.i], Perform(w, m).sys.procs[m.e.i])
    ensures Hollow(w.sys.procs[m.e.i]) ==> Hollow(Perform(w, m).sys.procs[m.e.i])
  {
    hide Apply, Nearer, Hollow, Perform, Waking, Placed, Booting, Accounted, Registered, Shaped, Traced, Advances,
      Control;
    var pl :| Inv(w.sys, pl);
    var e := m.e;
    PerformRefines(w, m);
    assert Control(w.sys.procs[e.i], w.sys.heap);
    if e.Dispatch? {
      DispatchNearer(w.sys, e.i);
    } else if e.Push? || e.Drain? || e.Handle? || e.Free? {
      if e.Push? {
        PushFits(w.sys, pl, e.i);
      }
      GiveNearer(w.sys, e);
    } else {
      LoopNearer(w.sys, e);
    }
  }

  // ---- infinite runs -----------------------------------------------------------------------

  /** At time t nothing happens, or a lively move. */
  ghost predicate NextIs(ws: nat -> World, ms: nat -> Option<Move>, t: nat) {
    match ms(t)
    case None => ws(t + 1) == ws(t)
    case Some(m) => Lively(ws(t), m) && ws(t + 1) == Perform(ws(t), m)
  }

  predicate MovesAt(ms: nat -> Option<Move>, i: nat, t: nat) {
    ms(t).Some? && Mover(ms(t).value) == i
  }

  /** A processor that has not left its loop will move. */
  ghost predicate FairTo(ws: nat -> World, ms: nat -> Option<Move>, i: nat, t: nat) {
    i < |ws(t).sys.procs| && !ws(t).sys.procs[i].pc.Exited? ==> exists u: nat :: u >= t && MovesAt(ms, i, u)
  }

  ghost predicate FairRun(ws: nat -> World, ms: nat -> Option<Move>) {
    (forall t: nat :: NextIs(ws, ms, t)) && (forall i: nat, t: nat :: FairTo(ws, ms, i, t))
  }

  ghost predicate LiveRun(ws: nat -> World, ms: nat -> Option<Move>, n: nat) {
    FairRun(ws, ms) && forall t: nat :: Live(ws(t)) && Roomy(ws(t).sys) && |ws(t).sys.procs| == n
  }

  ghost function Left(w: World): nat {
    if AllCount(w.ctxs) then WorkLeft(w) else 0
  }

  lemma {:induction false} LiveAt(ws: nat -> World, ms: nat -> Option<Move>, t: nat)
    requires FairRun(ws, ms) && Live(ws(0))
    ensures Live(ws(t)) && |ws(t).sys.procs| == |ws(0).sys.procs|
  {
    hide Live, FairTo, Lively, Perform;
    if t > 0 {
      LiveAt(ws, ms, t - 1);
      assert NextIs(ws, ms, t - 1);
      if ms(t - 1).Some? {
        LiveStep(ws(t - 1), ms(t - 1).value);
      }
    }
  }

  /** One tick: work is never added, and only the processor that moves changes. */
  lemma Tick(ws: nat -> World, ms: nat -> Option<Move>, n: nat, t: nat)
    requires LiveRun(ws, ms, n)
    ensures Left(ws(t + 1)) <= Left(ws(t))
    ensures forall j :: 0 <= j < n && !MovesAt(ms, j, t) ==> ws(t + 1).sys.procs[j] == ws(t).sys.procs[j]
    ensures ms(t).None? ==> ws(t + 1) == ws(t)
    ensures ms(t).Some? ==> Lively(ws(t), ms(t).value) && ws(t + 1) == Perform(ws(t), ms(t).value)
    ensures ms(t).Some? && Works(ws(t), ms(t).value) ==> Left(ws(t + 1)) < Left(ws(t))
  {
    hide FairTo, Perform, WorkLeft;
    assert NextIs(ws, ms, t);
    if ms(t).Some? {
      LiveStep(ws(t), ms(t).value);
    }
  }

  lemma {:induction false} LeftFalls(ws: nat -> World, ms: nat -> Option<Move>, n: nat, t: nat, u: nat)
    requires LiveRun(ws, ms, n) && t <= u
    ensures Left(ws(u)) <= Left(ws(t))
  {
    hide LiveRun, Left;
    if t < u {
      LeftFalls(ws, ms, n, t, u - 1);
      Tick(ws, ms, n, u - 1);
    }
  }

  /** The next move of processor i finds it as it is now. */
  lemma {:induction false} FirstMove(ws: nat -> World, ms: nat -> Option<Move>, n: nat, i: nat, t: nat, later: nat)
    returns (u: nat)
    requires LiveRun(ws, ms, n) && i < n && t <= later && MovesAt(ms, i, later)
    ensures t <= u && MovesAt(ms, i, u) && ws(u).sys.procs[i] == ws(t).sys.procs[i] && Left(ws(u)) <= Left(ws(t))
    decreases later - t
  {
    hide LiveRun, Left, Works, Perform, Lively;
    u := t;
    if !MovesAt(ms, i, t) {
      Tick(ws, ms, n, t);
      u := FirstMove(ws, ms, n, i, t + 1, later);
    }
  }

  lemma NextMove(ws: nat -> World, ms: nat -> Option<Move>, n: nat, i: nat, t: nat) returns (u: nat)
    requires LiveRun(ws, ms, n) && i < n && !ws(t).sys.procs[i].pc.Exited?
    ensures t <= u && MovesAt(ms, i, u) && ws(u).sys.procs[i] == ws(t).sys.procs[i] && Left(ws(u)) <= Left(ws(t))
  {
    assert FairTo(ws, ms, i, t);
    var later: nat :| later >= t && MovesAt(ms, i, later);
    u := FirstMove(ws, ms, n, i, t, later);
  }

  /** The move at time t does work or brings its processor nearer to rest. */
  lemma TickNearer(ws: nat -> World, ms: nat -> Option<Move>, n: nat, i: nat, t: nat)
    requires LiveRun(ws, ms, n) && i < n && MovesAt(ms, i, t)
    ensures Left(ws(t + 1)) <= Left(ws(t))
    ensures Left(ws(t + 1)) == Left(ws(t)) ==>
      Nearer(ws(t).sys.procs[i], ws(t + 1).sys.procs[i]) &&
      (Hollow(ws(t).sys.procs[i]) ==> Hollow(ws(t + 1).sys.procs[i]))
  {
    hide FairRun, Left, Nearer, Hollow, Roomy;
    Tick(ws, ms, n, t);
    if !Works(ws(t), ms(t).value) {
      MoveNearer(ws(t), ms(t).value);
    }
  }

  lemma {:induction false} ComesToRest(ws: nat -> World, ms: nat -> Option<Move>, n: nat, i: nat, t: nat)
    returns (u: nat)
    requires LiveRun(ws, ms, n) && i < n
    ensures t <= u && Left(ws(u)) <= Left(ws(t))
    ensures Left(ws(u)) < Left(ws(t)) || Hollow(ws(u).sys.procs[i])
    decreases Class(ws(t).sys.procs[i]), Len(ws(t).sys.procs[i])
  {
    hide FairRun, Left, Live, Roomy;
    u := t;
    if !Hollow(ws(t).sys.procs[i]) {
      var v := NextMove(ws, ms, n, i, t);
      TickNearer(ws, ms, n, i, v);
      u := v + 1;
      if Left(ws(u)) == Left(ws(t)) && !Hollow(ws(u).sys.procs[i]) {
        u := ComesToRest(ws, ms, n, i, v + 1);
      }
    }
  }

  lemma {:induction false} StaysHollow(ws: nat -> World, ms: nat -> Option<Move>, n: nat, i: nat, t: nat, u: nat)
    requires LiveRun(ws, ms, n) && i < n && t <= u && Left(ws(u)) == Left(ws(t)) && Hollow(ws(t).sys.procs[i])
    ensures Hollow(ws(u).sys.procs[i])
  {
    hide FairRun, Left, Live, Hollow, Nearer, Lively, Perform, Works, Roomy;
    if t < u {
      LeftFalls(ws, ms, n, t, u - 1);
      Tick(ws, ms, n, u - 1);
      StaysHollow(ws, ms, n, i, t, u - 1);
      if MovesAt(ms, i, u - 1) {
        TickNearer(ws, ms, n, i, u - 1);
      }
    }
  }

  lemma {:induction false} AllRest(ws: nat -> World, ms: nat -> Option<Move>, n: nat, k: nat, t: nat) returns (u: nat)
    requires LiveRun(ws, ms, n) && k <= n
    ensures t <= u && Left(ws(u)) <= Left(ws(t))
    ensures Left(ws(u)) < Left(ws(t)) || forall i :: 0 <= i < k ==> Hollow(ws(u).sys.procs[i])
  {
    hide FairRun, Left, Live, Hollow, Roomy;
    u := t;
    if k > 0 {
      var v := AllRest(ws, ms, n, k - 1, t);
      u := ComesToRest(ws, ms, n, k - 1, v);
      if Left(ws(u)) == Left(ws(t)) {
        forall i | 0 <= i < k - 1 ensures Hollow(ws(u).sys.procs[i]) {
          StaysHollow(ws, ms, n, i, v, u);
        }
      }
    }
  }

  // ---- all processors at rest ------------------------------------------------------------

  ghost predicate Idle(s: Sys) {
    forall i :: 0 <= i < |s.procs| ==> Hollow(s.procs[i])
  }

  /** With nothing at hand and nothing queued, nothing is counted; with nothing counted,
      nothing is queued. */
  lemma IdleCounts(w: World)
    requires Live(w) && Idle(w.sys)
    ensures w.sys.workCount == 0 <==> w.sys.queue == [] || SomeExited(w.sys)
  {
    hide Placed, Controlled, Registered, Booting, Shaped, Traced;
    var pl :| Inv(w.sys, pl);
    ZeroIsQuiescent(w.sys, pl);
    if w.sys.workCount != 0 && w.sys.queue == [] {
      WorkHasAPlace(w.sys, pl);
    }
  }

  function ToExit(p: Proc): nat {
    match p.pc
    case Draining => 4
    case Popping => 3
    case CheckingSlab => 2
    case CheckingCount => 1
    case _ => 0
  }

  function ToPop(p: Proc): nat {
    match p.pc
    case CheckingSlab => 3
    case CheckingCount => 2
    case Draining => 1
    case _ => 0
  }

  lemma IdleEvent(s: Sys, e: Event)
    requires Legal(s, e) && LivelyEvent(s, e) && !Advances(s, e) && IsKernel(e) && Hollow(s.procs[e.i])
    ensures Apply(s, e).queue == s.queue && Apply(s, e).workCount == s.workCount && !s.procs[e.i].pc.Exited?
    ensures s.workCount == 0 ==> ToExit(Apply(s, e).procs[e.i]) < ToExit(s.procs[e.i])
    ensures s.workCount != 0 && s.queue != [] ==>
      ToPop(Apply(s, e).procs[e.i]) < ToPop(s.procs[e.i]) && !Apply(s, e).procs[e.i].pc.Exited?
  {
  }

  /** The move at time t, by a processor at rest, is work or a step in search of some. */
  lemma IdleTick(ws: nat -> World, ms: nat -> Option<Move>, n: nat, t: nat)
    requires LiveRun(ws, ms, n) && Idle(ws(t).sys) && Left(ws(t + 1)) == Left(ws(t))
    ensures Idle(ws(t + 1).sys)
    ensures ws(t + 1).sys.queue == ws(t).sys.queue && ws(t + 1).sys.workCount == ws(t).sys.workCount
    ensures forall i :: 0 <= i < n && MovesAt(ms, i, t) ==>
      var s, p, p' := ws(t).sys, ws(t).sys.procs[i], ws(t + 1).sys.procs[i];
      && !p.pc.Exited? && (s.workCount == 0 ==> ToExit(p') < ToExit(p))
      && (s.workCount != 0 && s.queue != [] ==> ToPop(p') < ToPop(p) && !p'.pc.Exited?)
  {
    hide FairRun, Left, Hollow, Perform, Live, Works, ToExit, ToPop, Apply, Roomy;
    Tick(ws, ms, n, t);
    if ms(t).Some? {
      var m, s, s' := ms(t).value, ws(t).sys, ws(t + 1).sys;
      MoveNearer(ws(t), m);
      IdleEvent(s, m.e);
      forall i | 0 <= i < |s.procs| ensures Hollow(s'.procs[i]) {
        assert Hollow(s.procs[i]);
        assert i != m.e.i ==> !MovesAt(ms, i, t);
      }
    }
  }

  lemma {:induction false} IdleRun(ws: nat -> World, ms: nat -> Option<Move>, n: nat, t: nat, u: nat)
    requires LiveRun(ws, ms, n) && t <= u && Idle(ws(t).sys) && Left(ws(u)) == Left(ws(t))
    ensures Idle(ws(u).sys)
    ensures ws(u).sys.queue == ws(t).sys.queue && ws(u).sys.workCount == ws(t).sys.workCount
  {
    hide LiveRun, Left, Idle;
    if t < u {
      LeftFalls(ws, ms, n, t, u - 1);
      LeftFalls(ws, ms, n, u - 1, u);
      IdleRun(ws, ms, n, t, u - 1);
      IdleTick(ws, ms, n, u - 1);
    }
  }

  lemma NextIdle(ws: nat -> World, ms: nat -> Option<Move>, n: nat, i: nat, t: nat) returns (u: nat)
    requires LiveRun(ws, ms, n) && i < n && Idle(ws(t).sys) && !ws(t).sys.procs[i].pc.Exited?
    ensures t < u && Left(ws(u)) <= Left(ws(t))
    ensures Left(ws(u)) == Left(ws(t)) ==>
      var s, s' := ws(t).sys, ws(u).sys; var p, p' := s.procs[i], s'.procs[i];
      && Idle(s') && s'.queue == s.queue && s'.workCount == s.workCount
      && (s.workCount == 0 ==> ToExit(p') < ToExit(p))
      && (s.workCount != 0 && s.queue != [] ==> ToPop(p') < ToPop(p) && !p'.pc.Exited?)
  {
    hide FairRun, Live, Left, Idle, ToExit, ToPop, Works, Perform, Lively, Roomy;
    var v := NextMove(ws, ms, n, i, t);
    Tick(ws, ms, n, v);
    u := v + 1;
    if Left(ws(u)) == Left(ws(t)) {
      IdleRun(ws, ms, n, t, v);
      IdleTick(ws, ms, n, v);
    }
  }

  /** Where work is queued and everybody looks for work, somebody finds it. */
  lemma {:induction false} SomebodyPops(ws: nat -> World, ms: nat -> Option<Move>, n: nat, i: nat, t: nat)
    returns (u: nat)
    requires LiveRun(ws, ms, n) && i < n && Idle(ws(t).sys) && !ws(t).sys.procs[i].pc.Exited?
    requires ws(t).sys.workCount != 0 && ws(t).sys.queue != []
    ensures t <= u && Left(ws(u)) < Left(ws(t))
    decreases ToPop(ws(t).sys.procs[i])
  {
    hide FairRun, Live, Left, Idle, ToPop, Roomy;
    u := NextIdle(ws, ms, n, i, t);
    if Left(ws(u)) == Left(ws(t)) {
      u := SomebodyPops(ws, ms, n, i, u);
    }
  }

  /** Where nothing is counted and everybody looks for work, each thread leaves its loop. */
  lemma {:induction false} OneExits(ws: nat -> World, ms: nat -> Option<Move>, n: nat, i: nat, t: nat) returns (u: nat)
    requires LiveRun(ws, ms, n) && i < n && Idle(ws(t).sys) && ws(t).sys.workCount == 0
    ensures t <= u && Left(ws(u)) <= Left(ws(t))
    ensures Left(ws(u)) < Left(ws(t)) || (Idle(ws(u).sys) && ws(u).sys.workCount == 0 && ws(u).sys.procs[i].pc.Exited?)
    decreases ToExit(ws(t).sys.procs[i])
  {
    hide FairRun, Live, Left, Idle, ToExit, Roomy;
    u := t;
    if !ws(t).sys.procs[i].pc.Exited? {
      u := NextIdle(ws, ms, n, i, t);
      if Left(ws(u)) == Left(ws(t)) {
        u := OneExits(ws, ms, n, i, u);
      }
    }
  }

  lemma {:induction false} StaysExited(ws: nat -> World, ms: nat -> Option<Move>, n: nat, i: nat, t: nat, u: nat)
    requires LiveRun(ws, ms, n) && i < n && t <= u && Idle(ws(t).sys) && Left(ws(u)) == Left(ws(t))
    requires ws(t).sys.procs[i].pc.Exited?
    ensures ws(u).sys.procs[i].pc.Exited?
  {
    hide FairRun, Left, Live, Idle, Lively, Perform, Works, ToExit, ToPop, Roomy, MovesAt;
    if t < u {
      LeftFalls(ws, ms, n, t, u - 1);
      LeftFalls(ws, ms, n, u - 1, u);
      IdleRun(ws, ms, n, t, u - 1);
      StaysExited(ws, ms, n, i, t, u - 1);
      Tick(ws, ms, n, u - 1);
      IdleTick(ws, ms, n, u - 1);
    }
  }

  lemma {:induction false} AllExit(ws: nat -> World, ms: nat -> Option<Move>, n: nat, k: nat, t: nat) returns (u: nat)
    requires LiveRun(ws, ms, n) && k <= n && Idle(ws(t).sys) && ws(t).sys.workCount == 0
    ensures t <= u && Left(ws(u)) <= Left(ws(t))
    ensures Left(ws(u)) < Left(ws(t)) ||
      (Idle(ws(u).sys) && ws(u).sys.workCount == 0 && forall i :: 0 <= i < k ==> ws(u).sys.procs[i].pc.Exited?)
  {
    hide FairRun, Left, Live, Idle, Roomy;
    u := t;
    if k > 0 {
      var v := AllExit(ws, ms, n, k - 1, t);
      u := v;
      if Left(ws(v)) == Left(ws(t)) {
        u := OneExits(ws, ms, n, k - 1, v);
        if Left(ws(u)) == Left(ws(t)) {
          forall i | 0 <= i < k - 1 ensures ws(u).sys.procs[i].pc.Exited? {
            StaysExited(ws, ms, n, i, v, u);
          }
        }
      }
    }
  }

  lemma ExitedIsReturned(w: World)
    requires Live(w) && forall i :: 0 <= i < |w.sys.procs| ==> w.sys.procs[i].pc.Exited?
    ensures AllReturned(w.sys)
  {
    forall i | 0 <= i < |w.sys.procs| ensures w.sys.procs[i].pc == Exited(true) {
      assert w.sys.procs[i].pc != Exited(false);
    }
  }

  /** From a state at rest, work gets done or all threads return. */
  lemma WindsUp(ws: nat -> World, ms: nat -> Option<Move>, n: nat, t: nat) returns (u: nat)
    requires LiveRun(ws, ms, n) && Idle(ws(t).sys)
    ensures t <= u && (Left(ws(u)) < Left(ws(t)) || AllReturned(ws(u).sys))
  {
    hide FairRun, Left, Live, Idle, Roomy;
    IdleCounts(ws(t));
    u := t;
    if ws(t).sys.workCount == 0 {
      u := AllExit(ws, ms, n, n, t);
      if Left(ws(u)) == Left(ws(t)) {
        ExitedIsReturned(ws(u));
      }
    } else if i :| 0 <= i < n && !ws(t).sys.procs[i].pc.Exited? {
      u := SomebodyPops(ws, ms, n, i, t);
    } else {
      ExitedIsReturned(ws(t));
    }
  }

  lemma {:induction false} AllReturn(ws: nat -> World, ms: nat -> Option<Move>, n: nat, t: nat) returns (u: nat)
    requires LiveRun(ws, ms, n)
    ensures t <= u && AllReturned(ws(u).sys)
    decreases Left(ws(t))
  {
    hide FairRun, Left, Live, Hollow, Roomy;
    u := AllRest(ws, ms, n, n, t);
    if Left(ws(u)) == Left(ws(t)) {
      u := WindsUp(ws, ms, n, u);
    }
    if !AllReturned(ws(u).sys) {
      u := AllReturn(ws, ms, n, u);
    }
  }

  /** The launch is over and no event loop has failed. */
  ghost predicate Returnable(s: Sys) {
    forall i :: 0 <= i < |s.procs| ==> !s.procs[i].pc.TopCounted? && s.procs[i].pc != Exited(false)
  }

  lemma ReachableIsLive(n: nat, data: int, ms: seq<Move>, w: World)
    requires Play(Boot(n, data), ms) == Some(w) && Returnable(w.sys)
    ensures Live(w) && |w.sys.procs| == n
  {
    hide Play, Inv, Good, WorkLeft;
    PlayGood(n, data, ms);
    WorkIsBounded(n, data, ms, w);
    PlayRefines(Boot(n, data), ms);
    var es := EventsOf(Boot(n, data), ms);
    var pl := RunInv(n, es);
    if SomeExited(w.sys) {
      ExitedRun(n, es);
    }
  }

  /** Liveness, for any number of processors: every infinite run from a reachable state after
      the launch in which no thread is left out for ever, each poll wakes somebody, and at
      most GLOBAL_QUEUE_SIZE coroutines are alive at any time, reaches a state in which all
      threads have returned without error. */
  lemma FairRunsReturn(n: nat, data: int, ms0: seq<Move>, ws: nat -> World, ms: nat -> Option<Move>) returns (t: nat)
    requires Play(Boot(n, data), ms0) == Some(ws(0)) && Returnable(ws(0).sys) && FairRun(ws, ms)
    requires forall t: nat :: Roomy(ws(t).sys)
    ensures AllReturned(ws(t).sys)
  {
    hide Play, Live, FairRun, Returnable;
    ReachableIsLive(n, data, ms0, ws(0));
    forall t: nat ensures Live(ws(t)) && |ws(t).sys.procs| == n {
      LiveAt(ws, ms, t);
    }
    t := AllReturn(ws, ms, n, 0);
  }

  /** The moves up to time t are a run of scripts. */
  lemma {:induction false} ScheduleIsPlay(w: World, ms0: seq<Move>, ws: nat -> World, ms: nat -> Option<Move>, t: nat)
    returns (all: seq<Move>)
    requires Play(w, ms0) == Some(ws(0)) && FairRun(ws, ms)
    ensures Play(w, all) == Some(ws(t))
  {
    hide FairTo, Perform;
    all := ms0;
    if t > 0 {
      all := ScheduleIsPlay(w, ms0, ws, ms, t - 1);
      assert NextIs(ws, ms, t - 1);
      if ms(t - 1).Some? {
        PlaySnoc(w, all, ws(t - 1), ms(t - 1).value);
        all := all + [ms(t - 1).value];
      }
    }
  }

  /** By then every coroutine has performed its script, to its end or up to a panic, and
      none is left in memory. */
  lemma FairRunsComplete(n: nat, data: int, ms0: seq<Move>, ws: nat -> World, ms: nat -> Option<Move>) returns (t: nat)
    requires n > 0 && Play(Boot(n, data), ms0) == Some(ws(0)) && Returnable(ws(0).sys) && FairRun(ws, ms)
    requires forall t: nat :: Roomy(ws(t).sys)
    ensures AllReturned(ws(t).sys) && ws(t).sys.heap == map[]
    ensures var w := ws(t); forall id :: 0 <= id < |w.ctxs| ==>
      Completed(Projection(w.trace, id), Throws(w.trace, id), w.ctxs[id].script)
  {
    hide Play, FairRun, Returnable, Completed;
    t := FairRunsReturn(n, data, ms0, ws, ms);
    var all := ScheduleIsPlay(Boot(n, data), ms0, ws, ms, t);
    RunCompletes(n, data, all, ws(t));
  }

  // ---- such runs exist ---------------------------------------------------------------------

  /** The launched scripts are good for no more coroutines than the queue can hold. */
  ghost predicate Thrifty(w: World) {
    Budgeted(w) && Budget(w.trace) <= GLOBAL_QUEUE_SIZE
  }

  lemma BudgetKept(w: World, m: Move)
    requires CanMove(w, m) && !m.Launch?
    ensures Budget(Perform(w, m).trace) == Budget(w.trace)
  {
    hide Behave, Apply;
    if m.User? && Perform(w, m).trace != w.trace {
      BudgetSnoc(w.trace, Deed(RunId(w, m.i), w.ctxs[RunId(w, m.i)], StepOf(w, m).ctx));
    }
  }

  lemma ThriftyIsRoomy(w: World)
    requires Good(w) && Thrifty(w)
    ensures Roomy(w.sys)
  {
    hide Placed, Controlled, Booting, Accounted, Traced, Budget;
    assert Registered(w.sys);
    LiveAmongBorn(w.sys);
    SumNonNegative(SpawnsLeft(w.ctxs));
  }

  lemma {:induction false} ThriftyAt(ws: nat -> World, ms: nat -> Option<Move>, t: nat)
    requires FairRun(ws, ms) && Live(ws(0)) && Thrifty(ws(0))
    ensures Thrifty(ws(t)) && Roomy(ws(t).sys)
  {
    hide Good, AllCount, Settled, FairTo, LivelyEvent, Perform, Budgeted, Budget, Roomy;
    LiveAt(ws, ms, t);
    if t > 0 {
      ThriftyAt(ws, ms, t - 1);
      LiveAt(ws, ms, t - 1);
      assert NextIs(ws, ms, t - 1);
      if ms(t - 1).Some? {
        MoveBudget(ws(t - 1), ms(t - 1).value);
        BudgetKept(ws(t - 1), ms(t - 1).value);
      }
    }
    ThriftyIsRoomy(ws(t));
  }


  lemma StepIsLegal(s: Sys, c: Ctx, locked: bool, data: int, m: Move)
    requires m.User? && m.i < |s.procs| && c.k <= |c.script|
    requires var pc := s.procs[m.i].pc; RunsUserCode(s, m.i) || pc.Counted? || pc.InWait?
    requires CanCreate(s, m.i, m.ptr, m.stack) && m.token !in s.procs[m.i].slab
    ensures var st := Behave(c, s.procs[m.i], locked, data, m); st.event.Some? ==> Legal(s, st.event.value)
  {
    hide CanCreate, RunsUserCode;
  }

  lemma CodeCanMove(w: World, i: nat) returns (m: Move)
    requires Live(w) && i < |w.sys.procs|
    requires var pc := w.sys.procs[i].pc; pc.Executing? || pc.Counted? || pc.InWait?
    ensures Lively(w, m) && Mover(m) == i
  {
    hide Behave, Good;
    CodeIsKnown(w, i);
    var ptr := Unused(w.sys.heap.Keys);
    var stack := Unused(w.sys.stacks);
    var token := Unused(w.sys.procs[i].slab.Keys);
    m := User(i, ptr, stack, token);
    StepIsLegal(w.sys, w.ctxs[RunId(w, i)], w.locked, w.data, m);
  }

  /** A processor that has not left its loop can always move: there is no deadlock. */
  lemma CanAct(w: World, i: nat) returns (m: Move)
    requires Live(w) && i < |w.sys.procs| && !w.sys.procs[i].pc.Exited?
    ensures Lively(w, m) && Mover(m) == i
  {
    var p := w.sys.procs[i];
    if p.pc.Executing? || p.pc.Counted? || p.pc.InWait? {
      m := CodeCanMove(w, i);
    } else {
      hide Placed, Booting, Accounted, Registered, Shaped, Traced;
      var pl :| Inv(w.sys, pl);
      assert Control(p, w.sys.heap);
      var e := KernelCanMove(w.sys, p, i);
      m := Kernel(e);
    }
  }

  lemma KernelCanMove(s: Sys, p: Proc, i: nat) returns (e: Event)
    requires i < |s.procs| && s.procs[i] == p && Control(p, s.heap) && !p.pc.TopCounted? && !p.pc.Exited?
    requires !p.pc.Executing? && !p.pc.Counted? && !p.pc.InWait?
    ensures IsKernel(e) && Legal(s, e) && LivelyEvent(s, e) && e.i == i
  {
    match p.pc
    case Outside => e := Start(i);
    case Popping => e := Pop(i);
    case CheckingSlab => e := CheckSlab(i);
    case Polling =>
      var t :| t in p.slab;
      e := Poll(i, [t]);
      assert [t][0] in p.slab;
    case CheckingCount => e := CheckCount(i);
    case Returned(_) => e := Handle(i);
    case Pushing(_, _) => e := Push(i);
    case Freeing(_) => e := Free(i);
    case Dispatching(_) => e := Dispatch(i);
    case Draining => e := Drain(i);
  }

  ghost predicate CanChoose(w: World, i: nat) {
    exists m :: Lively(w, m) && Mover(m) == i
  }

  /** Some lively move of processor i, if it has one. */
  ghost function Choice(w: World, i: nat): Option<Move> {
    if CanChoose(w, i) then
      var m :| Lively(w, m) && Mover(m) == i;
      Some(m)
    else None
  }

  ghost function Advance(w: World, i: nat): World {
    match Choice(w, i)
    case None => w
    case Some(m) => Perform(w, m)
  }

  /** The processor whose turn it is at time t. */
  function Whose(n: nat, t: nat): (i: nat)
    requires n > 0
    ensures i < n
  {
    if t == 0 then 0 else
      var before := Whose(n, t - 1);
      if before + 1 < n then before + 1 else 0
  }

  /** The processors take turns. */
  ghost function Turns(w: World, n: nat, t: nat): World
    requires n > 0
  {
    if t == 0 then w else Advance(Turns(w, n, t - 1), Whose(n, t - 1))
  }

  lemma {:induction false} TurnsLive(w: World, n: nat, t: nat)
    requires n > 0 && Live(w) && |w.sys.procs| == n
    ensures Live(Turns(w, n, t)) && |Turns(w, n, t).sys.procs| == n
  {
    hide Live, Lively, Perform;
    if t > 0 {
      TurnsLive(w, n, t - 1);
      var v := Turns(w, n, t - 1);
      var m := Choice(v, Whose(n, t - 1));
      if m.Some? {
        LiveStep(v, m.value);
      }
    }
  }

  lemma {:induction false} TurnComes(w: World, n: nat, i: nat, t: nat, u: nat)
    requires n > 0 && Live(w) && |w.sys.procs| == n && i < n && t <= u
    requires forall k :: t <= k < u ==> Whose(n, k) != i
    ensures i < |Turns(w, n, t).sys.procs| && i < |Turns(w, n, u).sys.procs|
    ensures Turns(w, n, u).sys.procs[i] == Turns(w, n, t).sys.procs[i]
  {
    hide Live, Lively, Perform;
    TurnsLive(w, n, t);
    TurnsLive(w, n, u);
    if t < u {
      TurnComes(w, n, i, t, u - 1);
      TurnsLive(w, n, u - 1);
      var v := Turns(w, n, u - 1);
      var m := Choice(v, Whose(n, u - 1));
      if m.Some? {
        LiveStep(v, m.value);
      }
    }
  }

  lemma {:induction false} TurnExists(n: nat, i: nat, t: nat) returns (u: nat)
    requires i < n
    ensures t <= u && Whose(n, u) == i && forall k :: t <= k < u ==> Whose(n, k) != i
    decreases if Whose(n, t) <= i then i - Whose(n, t) else n + i - Whose(n, t)
  {
    u := t;
    if Whose(n, t) != i {
      u := TurnExists(n, i, t + 1);
    }
  }

  lemma TurnsAreFair(w: World, n: nat, ws: nat -> World, ms: nat -> Option<Move>)
    requires n > 0 && Live(w) && |w.sys.procs| == n
    requires forall t: nat :: ws(t) == Turns(w, n, t)
    requires forall t: nat :: ms(t) == Choice(Turns(w, n, t), Whose(n, t))
    ensures FairRun(ws, ms)
  {
    hide Live, Lively, Perform;
    forall t: nat ensures NextIs(ws, ms, t) {
      assert Turns(w, n, t + 1) == Advance(Turns(w, n, t), Whose(n, t));
    }
    forall i: nat, t: nat ensures FairTo(ws, ms, i, t) {
      TurnsLive(w, n, t);
      if i < n && !ws(t).sys.procs[i].pc.Exited? {
        var u := TurnExists(n, i, t);
        TurnComes(w, n, i, t, u);
        TurnsLive(w, n, u);
        var m := CanAct(Turns(w, n, u), i);
        assert MovesAt(ms, i, u);
      }
    }
  }

  lemma {:induction false} TurnsPlay(w: World, n: nat, t: nat) returns (ms: seq<Move>)
    requires n > 0
    ensures Play(w, ms) == Some(Turns(w, n, t))
  {
    hide Perform, CanChoose;
    ms := [];
    if t > 0 {
      ms := TurnsPlay(w, n, t - 1);
      var v := Turns(w, n, t - 1);
      var m := Choice(v, Whose(n, t - 1));
      if m.Some? {
        PlaySnoc(w, ms, v, m.value);
        ms := ms + [m.value];
      }
    }
  }

  lemma NothingToDo(w: World)
    ensures Play(w, []) == Some(w)
  {
  }

  lemma SomeRunReturns(n: nat, data: int, ms0: seq<Move>, w: World) returns (ms: seq<Move>)
    requires Play(Boot(n, data), ms0) == Some(w) && Returnable(w.sys) && Budget(w.trace) <= GLOBAL_QUEUE_SIZE
    ensures Play(w, ms).Some? && AllReturned(Play(w, ms).value.sys)
  {
    hide Live, Play, FairRun, Returnable, Budgeted, Budget, Roomy;
    ReachableIsLive(n, data, ms0, w);
    BornBudget(n, data, ms0, w);
    ms := [];
    if n > 0 {
      var ws := (t: nat) => Turns(w, n, t);
      var choices := (t: nat) => Choice(Turns(w, n, t), Whose(n, t));
      TurnsAreFair(w, n, ws, choices);
      forall t: nat ensures Roomy(ws(t).sys) {
        ThriftyAt(ws, choices, t);
      }
      var t := FairRunsReturn(n, data, ms0, ws, choices);
      ms := TurnsPlay(w, n, t);
    } else {
      NothingToDo(w);
    }
  }

  lemma {:induction false} FailedStays(w: World, ms: seq<Move>, i: nat)
    requires Play(w, ms).Some? && i < |w.sys.procs| && w.sys.procs[i].pc == Exited(false)
    ensures i < |Play(w, ms).value.sys.procs| && Play(w, ms).value.sys.procs[i].pc == Exited(false)
  {
    if ms != [] {
      hide Behave, Perform, Apply;
      var v, m := Play(w, ms[..|ms| - 1]).value, ms[|ms| - 1];
      FailedStays(w, ms[..|ms| - 1], i);
      PerformRefines(v, m);
      if EventOf(v, m).Some? {
        assert EventOf(v, m).value.i != i;
      }
    }
  }

  /** No reachable state is a dead end, for any number of processors: once the launches are
      over and if the queue is large enough for the launched scripts, a state has a
      continuation in which all threads return without error if and only if no event loop
      has failed yet. */
  lemma CanReturnIff(n: nat, data: int, ms0: seq<Move>, w: World)
    requires Play(Boot(n, data), ms0) == Some(w) && Budget(w.trace) <= GLOBAL_QUEUE_SIZE
    requires forall i :: 0 <= i < |w.sys.procs| ==> !w.sys.procs[i].pc.TopCounted?
    ensures (exists ms :: Play(w, ms).Some? && AllReturned(Play(w, ms).value.sys)) <==>
      forall i :: 0 <= i < |w.sys.procs| ==> w.sys.procs[i].pc != Exited(false)
  {
    hide Play, Budget;
    if i :| 0 <= i < |w.sys.procs| && w.sys.procs[i].pc == Exited(false) {
      forall ms | Play(w, ms).Some? ensures !AllReturned(Play(w, ms).value.sys) {
        FailedStays(w, ms, i);
      }
    } else {
      var ms := SomeRunReturns(n, data, ms0, w);
    }
  }
}
