/** The ready queue holds 4096 coroutines: never more, and in some runs that many. */
module Capacity {
  import opened Basics
  import opened Protocol
  import opened Fairness

  /** The queue grows by a push only, and then has had room. */
  lemma QueueGrows(s: Sys, e: Event)
    requires Enabled(s, e)
    ensures |Apply(s, e).queue| <= |s.queue| ||
      (e.Push? && |s.queue| < 4096 && Apply(s, e).queue == s.queue + [s.procs[e.i].pc.hdl])
  {
  }

  lemma {:induction false} QueueBounded(n: nat, es: seq<Event>, s: Sys)
    requires Exec(Init(n), es) == Some(s)
    ensures |s.queue| <= 4096
  {
    if es != [] {
      hide Apply, Enabled;
      var init, e := es[..|es| - 1], es[|es| - 1];
      var m := Exec(Init(n), init).value;
      QueueBounded(n, init, m);
      QueueGrows(m, e);
    }
  }

  /** On one processor, k coroutines are queued and another one runs, with nobody parked. */
  ghost predicate Filled(s: Sys, k: nat) {
    && |s.procs| == 1 && |s.queue| == k
    && s.procs[0].pc.Executing?
    && var h := s.procs[0].pc.hdl;
       s.procs[0] == Proc(Executing(h), Some(h), None, None, map[], {}) && h in s.heap && !s.heap[h].returned
  }

  lemma SpawnCounts(s: Sys, h: Ptr)
    requires |s.procs| == 1 && s.procs[0] == Proc(Executing(h), Some(h), None, None, map[], {})
    requires h in s.heap && !s.heap[h].returned
    ensures Legal(s, SpawnCount(0))
    ensures var s' := Apply(s, SpawnCount(0));
      s'.procs == [Proc(Counted(h), Some(h), None, None, map[], {})] && s'.queue == s.queue && s'.heap == s.heap
  {
  }

  lemma SpawnCreates(s: Sys, h: Ptr, ptr: Ptr, stack: Stack)
    requires s.procs == [Proc(Counted(h), Some(h), None, None, map[], {})] && CanCreate(s, 0, ptr, stack)
    ensures Legal(s, SpawnCreate(0, ptr, stack))
    ensures var s' := Apply(s, SpawnCreate(0, ptr, stack));
      && s'.procs == [Proc(Returned(h), None, Some(Ok(Suspended)), Some(ptr), map[], {})] && s'.queue == s.queue
      && s'.heap == s.heap[ptr := Coroutine(|s.births|, stack, false)]
  {
    assert {} - {stack} == {};
  }

  lemma Hands(s: Sys, h: Ptr, c: Ptr)
    requires s.procs == [Proc(Returned(h), None, Some(Ok(Suspended)), Some(c), map[], {})]
    ensures Legal(s, Handle(0))
    ensures Apply(s, Handle(0)) == s.(procs := [Proc(Pushing(h, None), None, None, Some(c), map[], {})])
  {
  }

  lemma Pushes(s: Sys, h: Ptr, c: Ptr)
    requires s.procs == [Proc(Pushing(h, None), None, None, Some(c), map[], {})]
    ensures Legal(s, Push(0))
    ensures if |s.queue| < 4096 then
        Apply(s, Push(0)) == s.(procs := [Proc(Draining, None, None, Some(c), map[], {})], queue := s.queue + [h])
      else Apply(s, Push(0)) == s
  {
  }

  lemma Drains(s: Sys, c: Ptr)
    requires s.procs == [Proc(Draining, None, None, Some(c), map[], {})]
    ensures Legal(s, Drain(0))
    ensures Apply(s, Drain(0)) == s.(procs := [Proc(Executing(c), Some(c), None, None, map[], {})])
  {
  }

  /** The coroutine that runs spawns another and is about to be pushed. */
  lemma SpawnsOne(es0: seq<Event>, s: Sys, k: nat) returns (es: seq<Event>, s': Sys, h: Ptr, c: Ptr)
    requires Exec(Init(1), es0) == Some(s) && Filled(s, k)
    ensures Exec(Init(1), es) == Some(s') && |s'.queue| == k
    ensures s'.procs == [Proc(Pushing(h, None), None, None, Some(c), map[], {})] && c in s'.heap && !s'.heap[c].returned
  {
    hide Apply, Exec, Legal, Create;
    h := s.procs[0].pc.hdl;
    c := Unused(s.heap.Keys);
    var stack := Unused(s.stacks);
    SpawnCounts(s, h);
    ExecSnoc(Init(1), es0, s, SpawnCount(0));
    var s1 := Apply(s, SpawnCount(0));
    StacksStay(s);
    SpawnCreates(s1, h, c, stack);
    ExecSnoc(Init(1), es0 + [SpawnCount(0)], s1, SpawnCreate(0, c, stack));
    var s2 := Apply(s1, SpawnCreate(0, c, stack));
    Hands(s2, h, c);
    ExecSnoc(Init(1), es0 + [SpawnCount(0)] + [SpawnCreate(0, c, stack)], s2, Handle(0));
    es, s' := es0 + [SpawnCount(0)] + [SpawnCreate(0, c, stack)] + [Handle(0)], Apply(s2, Handle(0));
  }

  lemma StacksStay(s: Sys)
    requires Enabled(s, SpawnCount(0))
    ensures Apply(s, SpawnCount(0)).stacks == s.stacks
  {
  }

  lemma FillsOne(es0: seq<Event>, s: Sys, k: nat) returns (es: seq<Event>, s': Sys)
    requires Exec(Init(1), es0) == Some(s) && Filled(s, k) && k < 4096
    ensures Exec(Init(1), es) == Some(s') && Filled(s', k + 1)
  {
    hide Apply, Exec, Legal;
    var es1, s1, h, c := SpawnsOne(es0, s, k);
    Pushes(s1, h, c);
    ExecSnoc(Init(1), es1, s1, Push(0));
    var s2 := Apply(s1, Push(0));
    Drains(s2, c);
    ExecSnoc(Init(1), es1 + [Push(0)], s2, Drain(0));
    es, s' := es1 + [Push(0)] + [Drain(0)], Apply(s2, Drain(0));
  }

  // ---- the first coroutine runs --------------------------------------------------------

  /** One processor with its launched coroutine. */
  function Booted(pc: Pc, running: Option<Ptr>, spawned: Option<Ptr>): Sys {
    Sys([Proc(pc, running, None, spawned, map[], {})], [], 1, map[100 := Coroutine(0, 7, false)], [100], [], {7})
  }

  lemma Next(es: seq<Event>, m: Sys, e: Event, m': Sys)
    requires Exec(Init(1), es) == Some(m) && Legal(m, e) && Same(Apply(m, e), m')
    ensures Exec(Init(1), es + [e]) == Some(m')
  {
    ExecSnoc(Init(1), es, m, e);
  }

  lemma BootedOne() returns (es: seq<Event>)
    ensures Exec(Init(1), es) == Some(Booted(Outside, None, Some(100)))
  {
    hide Exec;
    NothingYet();
    var s := Init(1).(procs := [NEW_PROC.(pc := TopCounted)], workCount := 1);
    Next([], Init(1), TopCount(0), s);
    assert {} - {7} == {};
    Next([] + [TopCount(0)], s, TopCreate(0, 100, 7), Booted(Outside, None, Some(100)));
    es := [] + [TopCount(0)] + [TopCreate(0, 100, 7)];
  }

  lemma NothingYet()
    ensures Exec(Init(1), []) == Some(Init(1))
  {
  }

  lemma FirstRuns() returns (es: seq<Event>)
    ensures Exec(Init(1), es) == Some(Booted(Executing(100), Some(100), None))
  {
    hide Exec, Orderly;
    es := BootedOne();
    var s1, s2 := Booted(Popping, None, Some(100)), Booted(CheckingSlab, None, Some(100));
    var s3, s4 := Booted(CheckingCount, None, Some(100)), Booted(Draining, None, Some(100));
    Next(es, Booted(Outside, None, Some(100)), Start(0), s1);
    es := es + [Start(0)];
    Next(es, s1, Pop(0), s2);
    es := es + [Pop(0)];
    Next(es, s2, CheckSlab(0), s3);
    es := es + [CheckSlab(0)];
    Next(es, s3, CheckCount(0), s4);
    es := es + [CheckCount(0)];
    Next(es, s4, Drain(0), Booted(Executing(100), Some(100), None));
    es := es + [Drain(0)];
  }

  lemma {:induction false} Fills(k: nat) returns (es: seq<Event>, s: Sys)
    requires k <= 4096
    ensures Exec(Init(1), es) == Some(s) && Filled(s, k)
  {
    if k == 0 {
      es := FirstRuns();
      s := Booted(Executing(100), Some(100), None);
    } else {
      es, s := Fills(k - 1);
      es, s := FillsOne(es, s, k - 1);
    }
  }

  /** The bound is reached, and then ready spins: there is a run on one processor after which
      4096 coroutines are queued and the push of another one changes nothing. */
  lemma WitnessFull() returns (es: seq<Event>, s: Sys)
    ensures Exec(Init(1), es) == Some(s) && |s.queue| == 4096
    ensures Legal(s, Push(0)) && Apply(s, Push(0)) == s
  {
    hide Exec, Apply, Legal, Filled;
    es, s := Fills(4096);
    var h, c;
    es, s, h, c := SpawnsOne(es, s, 4096);
    Pushes(s, h, c);
  }

  /** In every reachable state of any number of processors: a push appends its handle if and
      only if fewer than 4096 coroutines are queued, and otherwise changes nothing; and never
      are more queued. In particular it succeeds where at most 4096 are alive. */
  lemma PushDecides(n: nat, es: seq<Event>, s: Sys, i: nat)
    requires Exec(Init(n), es) == Some(s) && Enabled(s, Push(i))
    ensures |s.queue| <= 4096
    ensures Apply(s, Push(i)) == s <==> |s.queue| == 4096
    ensures Apply(s, Push(i)) != s ==>
      Apply(s, Push(i)).queue == s.queue + [s.procs[i].pc.hdl] && !Apply(s, Push(i)).procs[i].pc.Pushing?
    ensures |s.heap| <= 4096 ==> |s.queue| < 4096
  {
    hide Exec;
    QueueBounded(n, es, s);
    if |s.heap| <= 4096 {
      PushSucceeds(n, es, s, i);
    }
  }
}
