/** What scripts do under the scheduler, on any number of processors: each performs its own
    actions in order, and a clean return of every thread means that all of them have run. */
module Traces {
  import opened Basics
  import opened Protocol
  import opened Ownership
  import opened Invariant
  import opened Safety
  import opened LifeCycle
  import opened Programs

  /** The actions of coroutine number id in a trace. */
  function Projection(trace: seq<Entry>, id: nat): seq<Action> {
    if trace == [] then [] else
      var e := trace[|trace| - 1];
      Projection(trace[..|trace| - 1], id) + if e.Did? && e.id == id then [e.action] else []
  }

  /** Which of those actions have panicked. */
  function Throws(trace: seq<Entry>, id: nat): seq<bool> {
    if trace == [] then [] else
      var e := trace[|trace| - 1];
      Throws(trace[..|trace| - 1], id) + if e.Did? && e.id == id then [e.threw] else []
  }

  /** The scripts that a trace brings to life, in order. */
  function Born(trace: seq<Entry>): seq<seq<Action>> {
    if trace == [] then [] else
      var e := trace[|trace| - 1];
      Born(trace[..|trace| - 1]) +
        match e
        case Root(script) => [script]
        case Did(_, a, _) => if a.Spawn? then [a.body] else []
  }

  function Scripts(ctxs: seq<Ctx>): seq<seq<Action>> {
    seq(|ctxs|, id requires 0 <= id < |ctxs| => ctxs[id].script)
  }

  predicate MayThrow(a: Action) {
    a.Throw? || a.Lock? || a.TryLock? || a.Wait?
  }

  /** Of the k actions that a coroutine has performed, only the last can have panicked. */
  function Flags(c: Ctx): seq<bool> {
    seq(c.k, j => c.unwinding && j == c.k - 1)
  }

  /** A continuation that a coroutine can have. */
  predicate Sound(c: Ctx) {
    && c.k <= |c.script|
    && (c.unwinding ==> c.k > 0 && MayThrow(c.script[c.k - 1]))
    && (c.ended ==> c.guards == 0 && !c.dropping && (c.unwinding || c.k == |c.script|))
  }

  /** The next step of a coroutine that has counted its child is to create it. */
  predicate AtSpawn(c: Ctx) {
    c.k < |c.script| && c.script[c.k].Spawn? && !c.dropping && !c.unwinding
  }

  /** The coroutines that are between count and create stand at their Spawn action. */
  ghost predicate SpawnersReady(s: Sys, ctxs: seq<Ctx>) {
    forall i :: 0 <= i < |s.procs| && s.procs[i].pc.Counted? && s.procs[i].pc.hdl in s.heap ==>
      var id := s.heap[s.procs[i].pc.hdl].id; id < |ctxs| && AtSpawn(ctxs[id])
  }

  /** Every coroutine ever created has a continuation, which knows whether it has ended. */
  ghost predicate Matched(s: Sys, ctxs: seq<Ctx>) {
    && |ctxs| == |s.births|
    && forall id :: 0 <= id < |ctxs| ==> Sound(ctxs[id]) && (ctxs[id].ended <==> Over(s, id))
  }

  ghost predicate Shaped(w: World) {
    Matched(w.sys, w.ctxs) && SpawnersReady(w.sys, w.ctxs)
  }

  /** The trace accounts for the scripts and for how far each coroutine has come in its own. */
  ghost predicate Follows(ctxs: seq<Ctx>, trace: seq<Entry>) {
    && Scripts(ctxs) == Born(trace)
    && (forall k :: 0 <= k < |trace| && trace[k].Did? ==> trace[k].id < |ctxs|)
    && forall id :: 0 <= id < |ctxs| ==>
        && ctxs[id].k <= |ctxs[id].script|
        && Projection(trace, id) == ctxs[id].script[..ctxs[id].k] && Throws(trace, id) == Flags(ctxs[id])
  }

  ghost predicate Traced(w: World) {
    Follows(w.ctxs, w.trace)
  }

  lemma {:induction false} FutureIsEmpty(trace: seq<Entry>, id: nat)
    requires forall k :: 0 <= k < |trace| && trace[k].Did? ==> trace[k].id != id
    ensures Projection(trace, id) == [] && Throws(trace, id) == []
  {
    if trace != [] {
      FutureIsEmpty(trace[..|trace| - 1], id);
    }
  }

  /** The coroutine a processor runs is no other processor's. */
  lemma RunIdsDiffer(s: Sys, w: map<Ptr, Place>, i: nat, j: nat)
    requires Placed(s, w) && Registered(s) && i < |s.procs| && j < |s.procs| && i != j
    requires HasHdl(s.procs[i].pc) && HasHdl(s.procs[j].pc)
    ensures s.procs[i].pc.hdl in s.heap && s.procs[j].pc.hdl in s.heap
    ensures s.heap[s.procs[i].pc.hdl].id != s.heap[s.procs[j].pc.hdl].id
  {
    HdlHome(s, w, i);
    HdlHome(s, w, j);
  }

  /** The step performs, or attempts, the action at k. */
  predicate Acting(c: Ctx, p: Proc) {
    c.k < |c.script| && !c.dropping && !c.unwinding && !p.pc.InWait? && !p.pc.Counted?
  }

  /** A step performs the action at k or stays at k, and keeps the script. */
  ghost predicate InOrder(c: Ctx, p: Proc, st: Step) {
    && st.ctx.script == c.script && Sound(st.ctx)
    && (if st.done then c.k < |c.script| && st.ctx.k == c.k + 1 else st.ctx.k == c.k)
    && (st.ctx.unwinding == c.unwinding || (st.done && st.ctx.unwinding))
    && (st.done ==> !c.unwinding) && (p.pc.Counted? ==> st.done)
    && (st.done && c.script[c.k].Spawn? ==> p.pc.Counted?)
  }

  lemma ActingInOrder(c: Ctx, p: Proc, locked: bool, data: int, m: Move)
    requires m.User? && Sound(c) && !c.ended && Acting(c, p)
    ensures InOrder(c, p, Behave(c, p, locked, data, m))
  {
  }

  lemma BehaveInOrder(c: Ctx, p: Proc, locked: bool, data: int, m: Move)
    requires m.User? && Sound(c) && !c.ended && (p.pc.Counted? ==> AtSpawn(c))
    ensures InOrder(c, p, Behave(c, p, locked, data, m))
  {
    if Acting(c, p) {
      ActingInOrder(c, p, locked, data, m);
    }
  }

  /** The protocol events that a step may cause. */
  ghost predicate Causes(c: Ctx, p: Proc, st: Step, i: nat) {
    && (st.ctx.ended <==> st.event.Some? && Ends(st.event.value))
    && (st.event.Some? && st.event.value.SpawnCount? ==> AtSpawn(st.ctx))
    && (st.event.Some? && st.event.value.SpawnCreate? <==> p.pc.Counted?)
    && (st.event.Some? ==> st.event.value.i == i && InCode(st.event.value))
  }

  lemma ActingEvents(c: Ctx, p: Proc, locked: bool, data: int, m: Move)
    requires m.User? && Sound(c) && !c.ended && Acting(c, p)
    ensures Causes(c, p, Behave(c, p, locked, data, m), m.i)
  {
  }

  lemma BehaveEvents(c: Ctx, p: Proc, locked: bool, data: int, m: Move)
    requires m.User? && Sound(c) && !c.ended
    ensures Causes(c, p, Behave(c, p, locked, data, m), m.i)
  {
    if Acting(c, p) {
      ActingEvents(c, p, locked, data, m);
    }
  }

  predicate InCode(e: Event) {
    e.Sched? || e.SpawnCount? || e.SpawnCreate? || e.WaitInsert? || e.Block? || Ends(e)
  }

  lemma ProjectionSnoc(trace: seq<Entry>, e: Entry, id: nat)
    ensures Projection(trace + [e], id) == Projection(trace, id) + if e.Did? && e.id == id then [e.action] else []
    ensures Throws(trace + [e], id) == Throws(trace, id) + if e.Did? && e.id == id then [e.threw] else []
    ensures Born(trace + [e]) == Born(trace) +
      match e case Root(script) => [script] case Did(_, a, _) => if a.Spawn? then [a.body] else []
  {
    assert (trace + [e])[..|trace|] == trace;
  }

  lemma ScriptsSnoc(ctxs: seq<Ctx>, c: Ctx)
    ensures Scripts(ctxs + [c]) == Scripts(ctxs) + [c.script]
  {
  }

  lemma LaunchFollows(ctxs: seq<Ctx>, trace: seq<Entry>, script: seq<Action>)
    requires Follows(ctxs, trace)
    ensures Follows(ctxs + [NewCtx(script)], trace + [Root(script)])
  {
    hide Projection, Throws, Born, Scripts;
    ScriptsSnoc(ctxs, NewCtx(script));
    FutureIsEmpty(trace, |ctxs|);
    forall id: nat
      ensures Projection(trace + [Root(script)], id) == Projection(trace, id)
      ensures Throws(trace + [Root(script)], id) == Throws(trace, id)
    {
      ProjectionSnoc(trace, Root(script), id);
    }
    ProjectionSnoc(trace, Root(script), 0);
  }

  lemma LaunchTraced(w: World, m: Move)
    requires Traced(w) && CanMove(w, m) && m.Launch?
    ensures Traced(Perform(w, m))
  {
    hide Follows, Apply;
    LaunchFollows(w.ctxs, w.trace, m.script);
  }

  /** A coroutine performs script[k] ... */
  lemma DidTraced(ctxs: seq<Ctx>, trace: seq<Entry>, id: nat, c': Ctx)
    requires Follows(ctxs, trace) && id < |ctxs| && ctxs[id].k < |ctxs[id].script| && !ctxs[id].unwinding
    requires c'.script == ctxs[id].script && c'.k == ctxs[id].k + 1
    ensures var a := ctxs[id].script[ctxs[id].k]; var trace' := trace + [Deed(id, ctxs[id], c')];
      && Born(trace') == Scripts(ctxs[id := c']) + (if a.Spawn? then [a.body] else [])
      && Projection(trace', id) == c'.script[..c'.k] && Throws(trace', id) == Flags(c')
      && (forall j :: j != id ==>
            Projection(trace', j) == Projection(trace, j) && Throws(trace', j) == Throws(trace, j))
      && Projection(trace', |ctxs|) == [] && Throws(trace', |ctxs|) == []
  {
    hide Projection, Throws, Born;
    var c := ctxs[id];
    var e := Deed(id, c, c');
    forall j
      ensures Projection(trace + [e], j) == Projection(trace, j) + if j == id then [e.action] else []
      ensures Throws(trace + [e], j) == Throws(trace, j) + if j == id then [e.threw] else []
    {
      ProjectionSnoc(trace, e, j);
    }
    ProjectionSnoc(trace, e, id);
    FutureIsEmpty(trace, |ctxs|);
    assert c'.script[..c'.k] == c.script[..c.k] + [c.script[c.k]];
    assert Flags(c') == Flags(c) + [e.threw];
    assert Scripts(ctxs[id := c']) == Scripts(ctxs);
  }

  /** ... and possibly gives birth to a child. */
  lemma DidFollows(ctxs: seq<Ctx>, trace: seq<Entry>, id: nat, c': Ctx, children: seq<Ctx>)
    requires Follows(ctxs, trace) && id < |ctxs| && ctxs[id].k < |ctxs[id].script| && !ctxs[id].unwinding
    requires c'.script == ctxs[id].script && c'.k == ctxs[id].k + 1
    requires var a := ctxs[id].script[ctxs[id].k]; children == if a.Spawn? then [NewCtx(a.body)] else []
    ensures Follows(ctxs[id := c'] + children, trace + [Deed(id, ctxs[id], c')])
  {
    hide Projection, Throws, Born, Scripts;
    DidTraced(ctxs, trace, id, c');
    if children == [] {
      assert ctxs[id := c'] + children == ctxs[id := c'];
    } else {
      ScriptsSnoc(ctxs[id := c'], children[0]);
    }
  }

  lemma StayFollows(ctxs: seq<Ctx>, trace: seq<Entry>, id: nat, c': Ctx)
    requires Follows(ctxs, trace) && id < |ctxs| && c'.script == ctxs[id].script && c'.k == ctxs[id].k
    requires c'.unwinding == ctxs[id].unwinding
    ensures Follows(ctxs[id := c'], trace)
  {
    assert Scripts(ctxs[id := c']) == Scripts(ctxs) && Flags(c') == Flags(ctxs[id]);
  }

  ghost predicate Good(w: World) {
    (exists pl :: Inv(w.sys, pl)) && Shaped(w) && Traced(w)
  }

  lemma UserTraced(w: World, m: Move)
    requires Traced(w) && Shaped(w) && CanMove(w, m) && m.User? && !w.ctxs[RunId(w, m.i)].ended
    ensures Traced(Perform(w, m))
  {
    var id, st, v := RunId(w, m.i), StepOf(w, m), Perform(w, m);
    BehaveInOrder(w.ctxs[id], w.sys.procs[m.i], w.locked, w.data, m);
    if st.done {
      DidFollows(w.ctxs, w.trace, id, st.ctx, Newborn(w, m));
    } else {
      StayFollows(w.ctxs, w.trace, id, st.ctx);
      assert v.ctxs == w.ctxs[id := st.ctx] && v.trace == w.trace;
    }
  }

  /** Whether a function has ended changes only with the event that ends it. */
  lemma OverFrame(s: Sys, e: Event, id: nat)
    requires Registered(s) && Legal(s, e) && !Ends(e) && id < |s.births|
    requires e.Free? ==> s.heap[s.procs[e.i].pc.hdl].returned
    ensures Over(Apply(s, e), id) <==> Over(s, id)
  {
    if Creates(e) {
      assert Apply(s, e).freed == s.freed && Apply(s, e).births == s.births + [e.ptr];
    } else if e.Free? {
      assert Apply(s, e).freed == s.freed + [s.heap[s.procs[e.i].pc.hdl].id];
      assert Apply(s, e).heap == s.heap - {s.procs[e.i].pc.hdl};
    } else {
      HeapFrame(s, e);
    }
  }

  lemma NewIsNotOver(s: Sys, e: Event)
    requires Registered(s) && Legal(s, e) && Creates(e)
    ensures |Apply(s, e).births| == |s.births| + 1 && !Over(Apply(s, e), |s.births|)
  {
    assert Apply(s, e).births == s.births + [e.ptr] && Apply(s, e).freed == s.freed;
  }

  lemma OverEnds(s: Sys, e: Event, id: nat)
    requires Registered(s) && Legal(s, e) && Ends(e) && id < |s.births|
    ensures Over(Apply(s, e), id) <==> Over(s, id) || id == s.heap[s.procs[e.i].pc.hdl].id
  {
    HeapFrame(s, e);
    var h := s.procs[e.i].pc.hdl;
    assert Apply(s, e).heap == s.heap[h := s.heap[h].(returned := true)];
  }

  /** No event but SpawnCount brings a processor between count and create. */
  lemma CountedFrame(s: Sys, e: Event)
    requires Legal(s, e)
    ensures Apply(s, e).procs[e.i].pc.Counted? <==> e.SpawnCount?
    ensures e.SpawnCount? ==> Apply(s, e).procs[e.i].pc.hdl == s.procs[e.i].pc.hdl
  {
  }

  /** An event of the scheduler, or a launch, ends no function. */
  lemma KernelOver(s: Sys, e: Event, ids: nat)
    requires Registered(s) && Legal(s, e) && !Ends(e) && ids == |s.births| && Control(s.procs[e.i], s.heap)
    ensures forall id :: 0 <= id < ids ==> (Over(Apply(s, e), id) <==> Over(s, id))
    ensures |Apply(s, e).births| == ids + if Creates(e) then 1 else 0
    ensures Creates(e) ==> !Over(Apply(s, e), ids)
  {
    forall id | 0 <= id < ids ensures Over(Apply(s, e), id) <==> Over(s, id) {
      OverFrame(s, e, id);
    }
    if Creates(e) {
      NewIsNotOver(s, e);
    } else if !e.Free? {
      HeapFrame(s, e);
    }
  }

  lemma KernelPerforms(w: World, m: Move)
    requires CanMove(w, m) && !m.User?
    ensures EventOf(w, m).Some?
    ensures var e, v := EventOf(w, m).value, Perform(w, m);
      && v.sys == Apply(w.sys, e) && !Ends(e) && !e.SpawnCount? && (Creates(e) <==> m.Launch?)
      && v.ctxs == w.ctxs + if m.Launch? then [NewCtx(m.script)] else []
  {
  }

  lemma KernelShaped(w: World, pl: map<Ptr, Place>, m: Move)
    requires Inv(w.sys, pl) && Shaped(w) && CanMove(w, m) && !m.User?
    ensures Shaped(Perform(w, m))
  {
    KernelPerforms(w, m);
    assert Control(w.sys.procs[EventOf(w, m).value.i], w.sys.heap);
    KernelShape(w, pl, EventOf(w, m).value, Perform(w, m), if m.Launch? then [NewCtx(m.script)] else []);
  }

  lemma KernelMatched(s: Sys, e: Event, ctxs: seq<Ctx>, children: seq<Ctx>)
    requires Registered(s) && Legal(s, e) && !Ends(e) && Control(s.procs[e.i], s.heap) && Matched(s, ctxs)
    requires if Creates(e) then |children| == 1 && children[0] == NewCtx(children[0].script) else children == []
    ensures Matched(Apply(s, e), ctxs + children)
  {
    KernelOver(s, e, |ctxs|);
  }

  lemma KernelShape(w: World, pl: map<Ptr, Place>, e: Event, v: World, children: seq<Ctx>)
    requires Placed(w.sys, pl) && Registered(w.sys) && Shaped(w)
    requires Legal(w.sys, e) && Control(w.sys.procs[e.i], w.sys.heap) && !Ends(e) && !e.SpawnCount?
    requires v.sys == Apply(w.sys, e) && v.ctxs == w.ctxs + children
    requires if Creates(e) then |children| == 1 && children[0] == NewCtx(children[0].script) else children == []
    ensures Shaped(v)
  {
    hide Apply;
    KernelMatched(w.sys, e, w.ctxs, children);
    CountedKept(w.sys, pl, e, w.ctxs, v.ctxs);
  }

  /** An event of processor e.i changes at most the continuation of its own coroutine, so
      the other spawners stay ready. */
  lemma CountedKept(s: Sys, pl: map<Ptr, Place>, e: Event, ctxs: seq<Ctx>, ctxs': seq<Ctx>)
    requires Placed(s, pl) && Registered(s) && Legal(s, e) && SpawnersReady(s, ctxs) && |ctxs'| >= |ctxs|
    requires forall id :: 0 <= id < |ctxs| && ctxs'[id] != ctxs[id] ==>
               HasHdl(s.procs[e.i].pc) && s.procs[e.i].pc.hdl in s.heap && id == s.heap[s.procs[e.i].pc.hdl].id
    requires e.SpawnCount? ==>
      s.heap[s.procs[e.i].pc.hdl].id < |ctxs'| && AtSpawn(ctxs'[s.heap[s.procs[e.i].pc.hdl].id])
    ensures SpawnersReady(Apply(s, e), ctxs')
  {
    var s' := Apply(s, e);
    CountedFrame(s, e);
    forall i | 0 <= i < |s'.procs| && s'.procs[i].pc.Counted? && s'.procs[i].pc.hdl in s'.heap
      ensures s'.heap[s'.procs[i].pc.hdl].id < |ctxs'| && AtSpawn(ctxs'[s'.heap[s'.procs[i].pc.hdl].id])
    {
      if i != e.i {
        OtherSpawner(s, pl, e.i, i, ctxs, ctxs');
      }
      IdKept(s, e, s'.procs[i].pc.hdl);
    }
  }

  lemma OtherSpawner(s: Sys, pl: map<Ptr, Place>, mover: nat, i: nat, ctxs: seq<Ctx>, ctxs': seq<Ctx>)
    requires Placed(s, pl) && Registered(s) && SpawnersReady(s, ctxs) && |ctxs'| >= |ctxs|
    requires mover < |s.procs| && i < |s.procs| && i != mover && s.procs[i].pc.Counted?
    requires forall id :: 0 <= id < |ctxs| && ctxs'[id] != ctxs[id] ==>
               HasHdl(s.procs[mover].pc) && s.procs[mover].pc.hdl in s.heap && id == s.heap[s.procs[mover].pc.hdl].id
    ensures s.procs[i].pc.hdl in s.heap
    ensures s.heap[s.procs[i].pc.hdl].id < |ctxs'| && AtSpawn(ctxs'[s.heap[s.procs[i].pc.hdl].id])
  {
    HdlHome(s, pl, i);
    if HasHdl(s.procs[mover].pc) {
      RunIdsDiffer(s, pl, i, mover);
    }
  }

  lemma IdKept(s: Sys, e: Event, h: Ptr)
    requires Legal(s, e) && h in s.heap
    ensures h in Apply(s, e).heap ==> Apply(s, e).heap[h].id == s.heap[h].id
  {
    if !Creates(e) && !e.Free? {
      HeapFrame(s, e);
    }
  }

  lemma RunnerNotOver(w: World, i: nat)
    requires Registered(w.sys) && Shaped(w) && InUser(w, i)
    ensures !Over(w.sys, RunId(w, i)) && !w.ctxs[RunId(w, i)].ended
  {
  }

  lemma UserOver(s: Sys, e: Event, id: nat)
    requires Registered(s) && Legal(s, e) && InCode(e) && id < |s.births|
    ensures Over(Apply(s, e), id) <==> Over(s, id) || (Ends(e) && id == s.heap[s.procs[e.i].pc.hdl].id)
  {
    if Ends(e) {
      OverEnds(s, e, id);
    } else {
      OverFrame(s, e, id);
    }
  }

  lemma BirthsOf(s: Sys, e: Event)
    requires Legal(s, e) && InCode(e)
    ensures |Apply(s, e).births| == |s.births| + if e.SpawnCreate? then 1 else 0
  {
  }

  lemma UserEnds(w: World, m: Move)
    requires Registered(w.sys) && Shaped(w) && CanMove(w, m) && m.User?
    ensures Matched(Perform(w, m).sys, Perform(w, m).ctxs)
  {
    hide Behave, Apply;
    RunnerNotOver(w, m.i);
    var id, st, v := RunId(w, m.i), StepOf(w, m), Perform(w, m);
    BehaveInOrder(w.ctxs[id], w.sys.procs[m.i], w.locked, w.data, m);
    BehaveEvents(w.ctxs[id], w.sys.procs[m.i], w.locked, w.data, m);
    if st.event.Some? {
      BirthsOf(w.sys, st.event.value);
      forall j | 0 <= j < |w.ctxs| ensures v.ctxs[j].ended <==> Over(v.sys, j) {
        UserOver(w.sys, st.event.value, j);
      }
      if st.event.value.SpawnCreate? {
        NewIsNotOver(w.sys, st.event.value);
      }
    }
  }

  lemma UserReady(w: World, pl: map<Ptr, Place>, m: Move)
    requires Placed(w.sys, pl) && Registered(w.sys) && Shaped(w)
    requires CanMove(w, m) && m.User? && !w.ctxs[RunId(w, m.i)].ended
    ensures SpawnersReady(Perform(w, m).sys, Perform(w, m).ctxs)
  {
    var id, st, v := RunId(w, m.i), StepOf(w, m), Perform(w, m);
    BehaveEvents(w.ctxs[id], w.sys.procs[m.i], w.locked, w.data, m);
    if st.event.Some? {
      CountedKept(w.sys, pl, st.event.value, w.ctxs, v.ctxs);
    } else {
      forall i | 0 <= i < |w.sys.procs| && w.sys.procs[i].pc.Counted? && w.sys.procs[i].pc.hdl in w.sys.heap
        ensures w.sys.heap[w.sys.procs[i].pc.hdl].id < |v.ctxs| && AtSpawn(v.ctxs[w.sys.heap[w.sys.procs[i].pc.hdl].id])
      {
        if i != m.i {
          RunIdsDiffer(w.sys, pl, i, m.i);
        }
      }
    }
  }

  lemma UserShaped(w: World, pl: map<Ptr, Place>, m: Move)
    requires Inv(w.sys, pl) && Shaped(w) && CanMove(w, m) && m.User?
    ensures Shaped(Perform(w, m))
  {
    assert Registered(w.sys);
    RunnerNotOver(w, m.i);
    UserEnds(w, m);
    UserReady(w, pl, m);
  }

  lemma MoveInv(w: World, pl: map<Ptr, Place>, m: Move) returns (pl': map<Ptr, Place>)
    requires Inv(w.sys, pl) && CanMove(w, m)
    ensures Inv(Perform(w, m).sys, pl')
  {
    var e := EventOf(w, m);
    pl' := pl;
    if e.Some? {
      InvStep(w.sys, pl, e.value);
      pl' := Moved(w.sys, pl, e.value);
    }
  }

  lemma GoodStep(w: World, m: Move)
    requires Good(w) && CanMove(w, m)
    ensures Good(Perform(w, m))
  {
    var pl :| Inv(w.sys, pl);
    var pl' := MoveInv(w, pl, m);
    match m
    case Kernel(_) => KernelShaped(w, pl, m);
    case Launch(_, _, _, _) =>
      KernelShaped(w, pl, m);
      LaunchTraced(w, m);
    case User(i, _, _, _) =>
      UserShaped(w, pl, m);
      assert Registered(w.sys);
      RunnerNotOver(w, i);
      UserTraced(w, m);
  }

  lemma BootGood(n: nat, data: int)
    ensures Good(Boot(n, data))
  {
    InitInv(n);
  }

  lemma {:induction false} PlayGood(n: nat, data: int, ms: seq<Move>)
    requires Play(Boot(n, data), ms).Some?
    ensures Good(Play(Boot(n, data), ms).value)
  {
    if ms == [] {
      BootGood(n, data);
    } else {
      var init := ms[..|ms| - 1];
      PlayGood(n, data, init);
      GoodStep(Play(Boot(n, data), init).value, ms[|ms| - 1]);
    }
  }

  /** The actions of each coroutine in the global trace are a prefix of its script. */
  lemma ScriptsInOrder(n: nat, data: int, ms: seq<Move>, w: World, id: nat)
    requires Play(Boot(n, data), ms) == Some(w) && id < |w.ctxs|
    ensures Projection(w.trace, id) <= w.ctxs[id].script && Scripts(w.ctxs) == Born(w.trace)
  {
    PlayGood(n, data, ms);
  }

  /** A coroutine in its own code is never stuck on the model's side: its next step is
      defined, up to the choice of addresses, stacks and tokens. */
  lemma NeverStuck(n: nat, data: int, ms: seq<Move>, w: World, i: nat)
    requires Play(Boot(n, data), ms) == Some(w) && i < |w.sys.procs|
    requires var pc := w.sys.procs[i].pc; pc.Executing? || pc.Counted? || pc.InWait?
    ensures InUser(w, i)
  {
    PlayGood(n, data, ms);
    CodeIsKnown(w, i);
  }

  lemma CodeIsKnown(w: World, i: nat)
    requires Good(w) && i < |w.sys.procs|
    requires var pc := w.sys.procs[i].pc; pc.Executing? || pc.Counted? || pc.InWait?
    ensures InUser(w, i)
  {
    hide Placed, Accounted, Booting, Traced;
    var pl :| Inv(w.sys, pl);
    assert Control(w.sys.procs[i], w.sys.heap) && Registered(w.sys);
  }

  /** What a coroutine has done at its end: its whole script, or the part of it up to an
      action that panicked. No action before the last can have panicked. */
  ghost predicate Completed(performed: seq<Action>, threw: seq<bool>, script: seq<Action>) {
    && |threw| == |performed| && performed <= script
    && (forall j :: 0 <= j < |threw| - 1 ==> !threw[j])
    && if threw != [] && threw[|threw| - 1] then MayThrow(performed[|performed| - 1]) else performed == script
  }

  lemma EndedCompletes(c: Ctx, performed: seq<Action>, threw: seq<bool>)
    requires Sound(c) && c.ended && performed == c.script[..c.k] && threw == Flags(c)
    ensures Completed(performed, threw, c.script)
  {
    if c.k == |c.script| {
      assert performed == c.script;
    }
  }

  /** When every thread of run has returned without error, every coroutine ever spawned,
      nested spawns included, has run to its end, or to an action that panicked. */
  lemma RunCompletes(n: nat, data: int, ms: seq<Move>, w: World)
    requires n > 0 && Play(Boot(n, data), ms) == Some(w)
    requires forall i :: 0 <= i < |w.sys.procs| ==> w.sys.procs[i].pc == Exited(true)
    ensures w.sys.heap == map[]
    ensures forall id :: 0 <= id < |w.ctxs| ==>
      Completed(Projection(w.trace, id), Throws(w.trace, id), w.ctxs[id].script)
  {
    PlayGood(n, data, ms);
    PlayRefines(Boot(n, data), ms);
    RunReturns(n, EventsOf(Boot(n, data), ms), w.sys);
    forall id | 0 <= id < |w.ctxs|
      ensures Completed(Projection(w.trace, id), Throws(w.trace, id), w.ctxs[id].script)
    {
      assert Over(w.sys, id);
      EndedCompletes(w.ctxs[id], Projection(w.trace, id), Throws(w.trace, id));
    }
  }
}
