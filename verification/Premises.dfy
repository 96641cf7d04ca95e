/** What the premises are for: exactly which steps make the code lose or duplicate a
    coroutine, and what becomes of it. */
module Premises {
  import opened Basics
  import opened Protocol
  import opened Ownership
  import opened Invariant
  import opened Safety

  /** Every live coroutine has exactly one owner. */
  ghost predicate Owned(s: Sys) {
    exists w :: Placed(s, w)
  }

  lemma TwoHolders(s: Sys, pl: Place, pl': Place, h: Ptr)
    requires Holds(s, pl, h) && Holds(s, pl', h) && pl != pl'
    ensures !Owned(s)
  {
    if w :| Placed(s, w) {
      HolderIsHome(s, w, pl, h);
      HolderIsHome(s, w, pl', h);
      assert false;
    }
  }

  lemma NoHolder(s: Sys, h: Ptr)
    requires h in s.heap && forall pl :: !Holds(s, pl, h)
    ensures !Owned(s)
  {
    if w :| Placed(s, w) {
      HomeHolds(s, w, h);
      assert false;
    }
  }

  lemma HomeHolds(s: Sys, w: map<Ptr, Place>, h: Ptr)
    requires Placed(s, w) && h in s.heap
    ensures h in w && Holds(s, w[h], h)
  {
  }

  lemma FailedHolders(s: Sys, i: nat, t: Token)
    requires Enabled(s, RegisterFail(i, t))
    ensures var s' := Apply(s, RegisterFail(i, t)); var h := s.procs[i].pc.hdl;
      Holds(s', Hand(i), h) && Holds(s', Parked(i, t), h)
  {
  }

  /** A creation over a full slot leaves the other places as they are, and that slot to the
      new coroutine. */
  lemma OverwriteHolders(s: Sys, e: Event, pl: Place, h: Ptr)
    requires Enabled(s, e) && Creates(e) && Registers(s.procs[e.i], s.heap) && h != e.ptr
    ensures Holds(Apply(s, e), pl, h) ==> Holds(s, pl, h) && pl != Slot(e.i)
  {
  }

  /** The coroutine that was in the slot stays on the heap, with no owner. */
  lemma OverwriteLoses(s: Sys, w: map<Ptr, Place>, e: Event)
    requires Placed(s, w) && Enabled(s, e) && Creates(e) && Registers(s.procs[e.i], s.heap)
    requires s.procs[e.i].newSpawned.Some?
    ensures var c := s.procs[e.i].newSpawned.value; c in Apply(s, e).heap && forall pl :: !Holds(Apply(s, e), pl, c)
  {
    var c := s.procs[e.i].newSpawned.value;
    assert c in s.heap && Holds(s, Slot(e.i), c);
    forall pl ensures !Holds(Apply(s, e), pl, c) {
      if Holds(Apply(s, e), pl, c) {
        OverwriteHolders(s, e, pl, c);
        HolderIsHome(s, w, pl, c);
        HolderIsHome(s, w, Slot(e.i), c);
      }
    }
  }

  /** What one step does to ownership, exactly: every live coroutine still has its one owner
      unless a registration fails or a creation meets a full slot. */
  lemma StepOwnedIff(s: Sys, w: map<Ptr, Place>, e: Event)
    requires Placed(s, w) && Enabled(s, e) && Registers(s.procs[e.i], s.heap)
    ensures Owned(Apply(s, e)) <==> Harmless(s, e)
  {
    hide Apply, Placed, Registers;
    if Harmless(s, e) {
      PlacedStep(s, w, e);
    } else if e.RegisterFail? {
      FailedHolders(s, e.i, e.token);
      TwoHolders(Apply(s, e), Hand(e.i), Parked(e.i, e.token), s.procs[e.i].pc.hdl);
    } else {
      OverwriteLoses(s, w, e);
      NoHolder(Apply(s, e), s.procs[e.i].newSpawned.value);
    }
  }

  /** P holds in every state of the run. */
  ghost predicate Throughout(s: Sys, es: seq<Event>, P: Sys -> bool) {
    forall k, m :: 0 <= k <= |es| && RawExec(s, es[..k]) == Some(m) ==> P(m)
  }

  lemma ThroughoutSnoc(s: Sys, es: seq<Event>, P: Sys -> bool)
    requires es != []
    ensures Throughout(s, es, P) <==>
      Throughout(s, es[..|es| - 1], P) && (RawExec(s, es).Some? ==> P(RawExec(s, es).value))
  {
    var init := es[..|es| - 1];
    assert es[..|es|] == es;
    assert forall k :: 0 <= k < |es| ==> init[..k] == es[..k];
    if Throughout(s, es, P) {
      forall k, m | 0 <= k <= |init| && RawExec(s, init[..k]) == Some(m) ensures P(m) {
        assert RawExec(s, es[..k]) == Some(m);
      }
    } else {
      var k, m :| 0 <= k <= |es| && RawExec(s, es[..k]) == Some(m) && !P(m);
      assert k < |es| ==> RawExec(s, init[..k]) == Some(m);
    }
  }

  lemma ThroughoutNone(s: Sys, P: Sys -> bool)
    requires P(s)
    ensures Throughout(s, [], P)
  {
    var none: seq<Event> := [];
    assert none[..0] == none;
  }

  /** What a run does to ownership, exactly, for any number of processors, any interleaving
      and launches on any thread at any time: every live coroutine has exactly one owner in
      every state of the run if and only if no registration fails and no coroutine is
      created while new_spawned of its processor is full. */
  lemma {:induction false} RunOwnedIff(n: nat, es: seq<Event>)
    requires RawExec(Init(n), es).Some?
    ensures Throughout(Init(n), es, Owned) <==> HarmlessRun(Init(n), es)
  {
    if es == [] {
      var w := RunKept(n, es);
      assert Placed(Init(n), w);
      ThroughoutNone(Init(n), Owned);
    } else {
      var init, e := es[..|es| - 1], es[|es| - 1];
      RunOwnedIff(n, init);
      ThroughoutSnoc(Init(n), es, Owned);
      if HarmlessRun(Init(n), init) {
        var w := RunKept(n, init);
        StepOwnedIff(RawExec(Init(n), init).value, w, e);
      }
    }
  }

  lemma {:induction false} KeptLater(s: Sys, w: map<Ptr, Place>, es: seq<Event>) returns (w': map<Ptr, Place>)
    requires Kept(s, w) && RawExec(s, es).Some? && HarmlessRun(s, es)
    ensures Kept(RawExec(s, es).value, w')
  {
    w' := w;
    if es != [] {
      var init, e := es[..|es| - 1], es[|es| - 1];
      var w1 := KeptLater(s, w, init);
      KeptStep(RawExec(s, init).value, w1, e);
      w' := Moved(RawExec(s, init).value, w1, e);
    }
  }

  lemma ZeroOrLaunch(s: Sys, w: map<Ptr, Place>, e: Event)
    requires Kept(s, w) && Enabled(s, e) && Harmless(s, e) && s.workCount == 0
    ensures Quiescent(Apply(s, e)) <==> !e.TopCount?
    ensures !e.TopCount? ==> Apply(s, e).workCount == 0
  {
    hide Kept, Harmless;
    if e.TopCount? {
      assert Apply(s, e).procs[e.i].pc.TopCounted?;
    } else {
      ZeroAfter(s, w, e);
    }
  }

  lemma ZeroAfter(s: Sys, w: map<Ptr, Place>, e: Event)
    requires Kept(s, w) && Enabled(s, e) && Harmless(s, e) && s.workCount == 0 && !e.TopCount?
    ensures Quiescent(Apply(s, e)) && Apply(s, e).workCount == 0
  {
    hide Apply, Placed, Quiescent, RegistersKept, Accounted, Registered;
    KeptStep(s, w, e);
    ZeroStep(s, w, e);
    ZeroIsQuiescent(Apply(s, e), Moved(s, w, e));
  }

  predicate NoLaunches(es: seq<Event>) {
    forall k :: 0 <= k < |es| ==> !es[k].TopCount?
  }

  lemma LaunchesSnoc(es: seq<Event>)
    requires es != []
    ensures NoLaunches(es) <==> NoLaunches(es[..|es| - 1]) && !es[|es| - 1].TopCount?
  {
    assert forall k :: 0 <= k < |es| - 1 ==> es[..|es| - 1][k] == es[k];
  }

  /** What the break of a processor that has read a zero counter is worth, exactly: nothing
      is queued, parked, handed over or running from then on if and only if nobody launches
      a coroutine from outside any more. This is what the rest of Orderly is for. */
  lemma {:induction false} BreakHoldsIff(n: nat, es0: seq<Event>, s: Sys, es: seq<Event>)
    requires RawExec(Init(n), es0) == Some(s) && HarmlessRun(Init(n), es0) && s.workCount == 0
    requires RawExec(s, es).Some? && HarmlessRun(s, es)
    ensures Throughout(s, es, Quiescent) <==> NoLaunches(es)
    ensures NoLaunches(es) ==> RawExec(s, es).value.workCount == 0
  {
    var w := RunKept(n, es0);
    if es == [] {
      ZeroIsQuiescent(s, w);
      ThroughoutNone(s, Quiescent);
    } else {
      hide Kept, Quiescent, Harmless, Apply, Enabled, Throughout, NoLaunches;
      var init, e := es[..|es| - 1], es[|es| - 1];
      BreakHoldsIff(n, es0, s, init);
      ThroughoutSnoc(s, es, Quiescent);
      LaunchesSnoc(es);
      if NoLaunches(init) {
        var w1 := KeptLater(s, w, init);
        ZeroOrLaunch(RawExec(s, init).value, w1, e);
      }
    }
  }

  /** The slab insert of wait_event comes before the fallible registration and is not
      undone: ownership survives the call exactly when registration succeeds. */
  lemma RegistrationDecides(s: Sys, w: map<Ptr, Place>, i: nat, t: Token)
    requires i < |s.procs| && RunsUserCode(s, i) && t !in s.procs[i].slab && |s.procs[i].slab| < 102400
    requires Placed(s, w) && Registers(s.procs[i], s.heap)
    ensures Enabled(s, WaitInsert(i, t)) && Enabled(s, RegisterFail(i, t))
    ensures Owned(Apply(s, WaitInsert(i, t))) && !Owned(Apply(s, RegisterFail(i, t)))
  {
    StepOwnedIff(s, w, WaitInsert(i, t));
    StepOwnedIff(s, w, RegisterFail(i, t));
  }

  /** The event does not make processor i take token t out of its slab: events arrive for
      tokens that the event loop has accepted, and t was refused. */
  predicate Withholds(e: Event, i: nat, t: Token) {
    (e.Poll? && e.i == i ==> t !in e.batch) && !(e.PollError? && e.i == i)
  }

  /** The slab of p has t for h, p is not about to take it, and has not looked away from a
      slab that it found empty. */
  predicate Trapped(p: Proc, t: Token, h: Ptr) {
    && t in p.slab && p.slab[t] == h && !p.pc.CheckingCount? && !p.pc.Exited?
    && (p.pc.Dispatching? ==> t !in p.pc.batch)
    && (p.pc.Pushing? && p.pc.rest.Some? ==> t !in p.pc.rest.value)
  }

  lemma TrappedStep(s: Sys, e: Event, i: nat, t: Token, h: Ptr)
    requires Enabled(s, e) && i < |s.procs| && Trapped(s.procs[i], t, h) && Withholds(e, i, t)
    ensures i < |Apply(s, e).procs| && Trapped(Apply(s, e).procs[i], t, h)
  {
  }

  lemma {:induction false} TrappedRun(s: Sys, es: seq<Event>, i: nat, t: Token, h: Ptr)
    requires i < |s.procs| && Trapped(s.procs[i], t, h)
    requires RawExec(s, es).Some? && forall k :: 0 <= k < |es| ==> Withholds(es[k], i, t)
    ensures i < |RawExec(s, es).value.procs| && Trapped(RawExec(s, es).value.procs[i], t, h)
  {
    if es != [] {
      TrappedRun(s, es[..|es| - 1], i, t, h);
      TrappedStep(RawExec(s, es[..|es| - 1]).value, es[|es| - 1], i, t, h);
    }
  }

  /** What a failed registration leads to, whatever else happens on any processor: unless an
      event arrives for the very token that was refused, the entry stays in the slab, to
      which the coroutine is a dangling pointer once it has ended, and the thread does not
      leave its loop other than by an I/O error. */
  lemma FailureTraps(s: Sys, i: nat, t: Token, es: seq<Event>, m: Sys)
    requires Enabled(s, RegisterFail(i, t)) && RawExec(Apply(s, RegisterFail(i, t)), es) == Some(m)
    requires forall k :: 0 <= k < |es| ==> Withholds(es[k], i, t)
    ensures i < |m.procs| && t in m.procs[i].slab && m.procs[i].slab[t] == s.procs[i].pc.hdl
    ensures !m.procs[i].pc.CheckingCount? && !m.procs[i].pc.Exited?
  {
    TrappedRun(Apply(s, RegisterFail(i, t)), es, i, t, s.procs[i].pc.hdl);
  }

  /** A spawn from outside any coroutine does not yield. Right after it every coroutine is
      owned exactly when the slot of its thread was empty; otherwise the coroutine that was
      waiting there stays on the heap, counted, with no owner. */
  lemma TopSpawnDecides(s: Sys, w: map<Ptr, Place>, i: nat, ptr: Ptr, stack: Stack)
    requires Placed(s, w) && Enabled(s, TopCount(i)) && Registers(s.procs[i], s.heap)
    requires Enabled(Apply(s, TopCount(i)), TopCreate(i, ptr, stack))
    ensures Owned(Apply(Apply(s, TopCount(i)), TopCreate(i, ptr, stack))) <==> s.procs[i].newSpawned.None?
  {
    var m := Apply(s, TopCount(i));
    PlacedStep(s, w, TopCount(i));
    RegistersSelf(s, w, TopCount(i));
    StepOwnedIff(m, Moved(s, w, TopCount(i)), TopCreate(i, ptr, stack));
  }

  /** One step of a run that need not respect the premises, to a state given field by field. */
  lemma RawThen(s: Sys, es: seq<Event>, m: Sys, e: Event, m': Sys)
    requires RawExec(s, es) == Some(m) && Enabled(m, e) && Same(Apply(m, e), m')
    ensures RawExec(s, es + [e]) == Some(m')
  {
    RawSnoc(s, es, e);
  }

  /** Two processors with the one coroutine, of which the second is not in schedule yet. */
  function One(p: Proc, queue: seq<Ptr>): Sys {
    Sys([p, NEW_PROC], queue, 1, map[100 := Coroutine(0, 7, false)], [100], [], {7})
  }

  const BORN: Proc := NEW_PROC.(newSpawned := Some(100))

  lemma Spawned() returns (es: seq<Event>)
    ensures RawExec(Init(2), es) == Some(One(BORN, []))
  {
    var s := Init(2);
    var m := Sys([NEW_PROC.(pc := TopCounted), NEW_PROC], [], 1, map[], [], [], {});
    es := [];
    RawThen(s, es, s, TopCount(0), m);
    es := es + [TopCount(0)];
    assert {} - {7} == {};
    RawThen(s, es, m, TopCreate(0, 100, 7), One(BORN, []));
    es := es + [TopCreate(0, 100, 7)];
  }

  /** Two processors with two coroutines. */
  function Two(p: Proc, q: Proc, queue: seq<Ptr>, count: nat): Sys {
    Sys([p, q], queue, count, map[100 := Coroutine(0, 7, false), 200 := Coroutine(1, 8, false)], [100, 200], [], {7, 8})
  }

  const BORN_TOO: Proc := NEW_PROC.(newSpawned := Some(200))
  const RUNS_TOO: Proc := Proc(Executing(200), Some(200), None, None, map[], {})

  lemma TwoTopLevelSpawns() returns (es: seq<Event>)
    ensures RawExec(Init(2), es) == Some(Two(BORN, BORN_TOO, [], 2))
  {
    var s := Init(2);
    var m := One(BORN, []).(procs := [BORN, NEW_PROC.(pc := TopCounted)], workCount := 2);
    es := Spawned();
    RawThen(s, es, One(BORN, []), TopCount(1), m);
    es := es + [TopCount(1)];
    assert {} - {8} == {};
    RawThen(s, es, m, TopCreate(1, 200, 8), Two(BORN, BORN_TOO, [], 2));
    es := es + [TopCreate(1, 200, 8)];
  }

  lemma OtherThreadRuns() returns (es: seq<Event>)
    ensures RawExec(Init(2), es) == Some(Two(BORN, RUNS_TOO, [], 2))
  {
    var s, p := Init(2), BORN_TOO;
    es := TwoTopLevelSpawns();
    RawThen(s, es, Two(BORN, p, [], 2), Start(1), Two(BORN, p.(pc := Popping), [], 2));
    es := es + [Start(1)];
    RawThen(s, es, Two(BORN, p.(pc := Popping), [], 2), Pop(1), Two(BORN, p.(pc := CheckingSlab), [], 2));
    es := es + [Pop(1)];
    RawThen(s, es, Two(BORN, p.(pc := CheckingSlab), [], 2), CheckSlab(1), Two(BORN, p.(pc := CheckingCount), [], 2));
    es := es + [CheckSlab(1)];
    RawThen(s, es, Two(BORN, p.(pc := CheckingCount), [], 2), CheckCount(1), Two(BORN, p.(pc := Draining), [], 2));
    es := es + [CheckCount(1)];
    RawThen(s, es, Two(BORN, p.(pc := Draining), [], 2), Drain(1), Two(BORN, RUNS_TOO, [], 2));
    es := es + [Drain(1)];
  }

  lemma OtherThreadYields() returns (es: seq<Event>)
    ensures RawExec(Init(2), es) == Some(Two(BORN, NEW_PROC.(pc := Draining), [200], 2))
  {
    var s := Init(2);
    var p := Proc(Returned(200), None, Some(Ok(Suspended)), None, map[], {});
    var q := NEW_PROC.(pc := Pushing(200, None));
    es := OtherThreadRuns();
    RawThen(s, es, Two(BORN, RUNS_TOO, [], 2), Sched(1), Two(BORN, p, [], 2));
    es := es + [Sched(1)];
    RawThen(s, es, Two(BORN, p, [], 2), Handle(1), Two(BORN, q, [], 2));
    es := es + [Handle(1)];
    RawThen(s, es, Two(BORN, q, [], 2), Push(1), Two(BORN, NEW_PROC.(pc := Draining), [200], 2));
    es := es + [Push(1)];
  }

  lemma YielderPopped() returns (es: seq<Event>)
    ensures RawExec(Init(2), es) ==
      Some(Two(RUNS_TOO.(pc := Counted(200), newSpawned := Some(100)), NEW_PROC.(pc := Draining), [], 3))
  {
    var s, q, p := Init(2), NEW_PROC.(pc := Draining), RUNS_TOO.(newSpawned := Some(100));
    es := OtherThreadYields();
    RawThen(s, es, Two(BORN, q, [200], 2), Start(0), Two(BORN.(pc := Popping), q, [200], 2));
    es := es + [Start(0)];
    RawThen(s, es, Two(BORN.(pc := Popping), q, [200], 2), Pop(0), Two(p, q, [], 2));
    es := es + [Pop(0)];
    RawThen(s, es, Two(p, q, [], 2), SpawnCount(0), Two(p.(pc := Counted(200)), q, [], 3));
    es := es + [SpawnCount(0)];
  }

  lemma ChildOverwrites() returns (es: seq<Event>)
    ensures RawExec(Init(2), es).Some?
    ensures var s := RawExec(Init(2), es).value;
      && |s.procs| == 2 && 100 in s.heap && s.queue == []
      && s.procs[0] == Proc(Returned(200), None, Some(Ok(Suspended)), Some(300), map[], {})
      && s.procs[1] == NEW_PROC.(pc := Draining)
  {
    es := YielderPopped();
    RawSnoc(Init(2), es, SpawnCreate(0, 300, 9));
    es := es + [SpawnCreate(0, 300, 9)];
    assert RawExec(Init(2), es).value.procs[0].pool == {};
  }

  /** Two threads, each with one top-level spawn into an empty slot: a thread that pops
      before it drains its slot runs a coroutine whose spawn overwrites the slot. */
  lemma WitnessLostSpawn() returns (es: seq<Event>)
    ensures RawExec(Init(2), es).Some?
    ensures var s := RawExec(Init(2), es).value; 100 in s.heap && forall pl :: !Holds(s, pl, 100)
  {
    hide RawExec;
    es := ChildOverwrites();
    HeldNowhere(RawExec(Init(2), es).value, 100);
  }

  lemma HeldNowhere(s: Sys, h: Ptr)
    requires |s.procs| == 2 && s.queue == []
    requires forall i :: 0 <= i < 2 ==>
      s.procs[i].newSpawned != Some(h) && HandOf(s.procs[i]) != Some(h) && s.procs[i].slab == map[]
    ensures forall pl :: !Holds(s, pl, h)
  {
  }
}
