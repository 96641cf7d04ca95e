/** What the event loop and the stack pool have answered in a run on one processor. */
module Environment {
  import opened Basics
  import opened Protocol
  import opened Ownership
  import opened Programs
  import opened Traces
  import opened Stacks
  import opened Endings
  import opened Population

  /** What run_once delivers at its k-th call: None is an I/O error. */
  type EventSource = (nat, map<Token, Ptr>) -> Option<seq<Token>>

  function SlabOf(w: World): map<Token, Ptr> {
    if |w.sys.procs| == 1 then w.sys.procs[0].slab else map[]
  }

  function PoolOf(w: World): set<Stack> {
    if |w.sys.procs| == 1 then w.sys.procs[0].pool else {}
  }

  predicate IsPoll(m: Move) {
    m.Kernel? && (m.e.Poll? || m.e.PollError?)
  }

  /** The move brings a coroutine into being. */
  predicate Bears(w: World, m: Move) {
    m.Launch? || (m.User? && m.i < |w.sys.procs| && w.sys.procs[m.i].pc.Counted?)
  }

  /** The slabs with which run_once has been called, in order. */
  function Asked(w0: World, ms: seq<Move>): seq<map<Token, Ptr>>
    requires Play(w0, ms).Some?
  {
    if ms == [] then [] else
      var init := ms[..|ms| - 1];
      Asked(w0, init) + if IsPoll(ms[|ms| - 1]) then [SlabOf(Play(w0, init).value)] else []
  }

  /** The k-th poll brings what the source answers to it, and a new coroutine takes a stack
      from the pool if there is one. */
  predicate Fits(source: EventSource, k: nat, w: World, m: Move) {
    && (IsPoll(m) ==>
         m.e == match source(k, SlabOf(w)) case None => PollError(0) case Some(batch) => Poll(0, batch))
    && (Bears(w, m) && PoolOf(w) != {} ==> m.stack in PoolOf(w))
  }

  predicate Fitting(w0: World, source: EventSource, ms: seq<Move>)
    requires Play(w0, ms).Some?
  {
    ms == [] ||
    var init := ms[..|ms| - 1];
    Fitting(w0, source, init) && Fits(source, |Asked(w0, init)|, Play(w0, init).value, ms[|ms| - 1])
  }

  lemma FittingSnoc(w0: World, source: EventSource, ms: seq<Move>, w: World, m: Move)
    requires Play(w0, ms) == Some(w) && CanMove(w, m)
    requires Fitting(w0, source, ms) && Fits(source, |Asked(w0, ms)|, w, m)
    ensures Play(w0, ms + [m]) == Some(Perform(w, m)) && Fitting(w0, source, ms + [m])
    ensures Asked(w0, ms + [m]) == Asked(w0, ms) + if IsPoll(m) then [SlabOf(w)] else []
  {
    hide Perform, CanMove, Fits;
    PlaySnoc(w0, ms, w, m);
    assert (ms + [m])[..|ms|] == ms;
  }

  /** Every move of such a run fits: the k-th poll brings the k-th answer of the source, to
      the slab as it was at that moment. */
  lemma {:induction false} FittingAt(w0: World, source: EventSource, ms: seq<Move>, k: nat, v: World)
    requires Play(w0, ms).Some? && Fitting(w0, source, ms) && k < |ms| && Play(w0, ms[..k]) == Some(v)
    ensures Fits(source, |Asked(w0, ms[..k])|, v, ms[k])
  {
    if k < |ms| - 1 {
      var init := ms[..|ms| - 1];
      assert init[..k] == ms[..k];
      FittingAt(w0, source, init, k, v);
    }
  }

  // ---- the event loop ---------------------------------------------------------------------

  /** Nobody moves once the thread has left schedule. */
  lemma ExitedRests(w: World, m: Move)
    requires |w.sys.procs| == 1 && w.sys.procs[0].pc.Exited?
    ensures !CanMove(w, m)
  {
    hide Behave;
  }

  lemma ErrorStep(w: World, m: Move)
    requires |w.sys.procs| == 1 && CanMove(w, m)
    ensures |Perform(w, m).sys.procs| == 1
    ensures Perform(w, m).sys.procs[0].pc == Exited(false) <==> m == Kernel(PollError(0))
  {
    hide Behave;
    if w.sys.procs[0].pc.Exited? {
      ExitedRests(w, m);
    } else {
      var e := EventOf(w, m);
      PerformRefines(w, m);
      if e.Some? {
        ErrorEvent(w.sys, e.value);
        if !m.Kernel? {
          UserIsNoPoll(w, m);
        }
      }
    }
  }

  lemma ErrorEvent(s: Sys, e: Event)
    requires |s.procs| == 1 && Enabled(s, e) && !s.procs[0].pc.Exited?
    ensures Apply(s, e).procs[0].pc == Exited(false) <==> e == PollError(0)
  {
  }

  lemma UserIsNoPoll(w: World, m: Move)
    requires CanMove(w, m) && !m.Kernel? && EventOf(w, m).Some?
    ensures !EventOf(w, m).value.PollError?
  {
  }

  /** Some of these calls has been answered with an error. */
  ghost predicate SomeError(source: EventSource, asked: seq<map<Token, Ptr>>) {
    exists k :: 0 <= k < |asked| && source(k, asked[k]).None?
  }

  lemma SomeErrorSnoc(source: EventSource, asked: seq<map<Token, Ptr>>, slab: map<Token, Ptr>)
    ensures SomeError(source, asked + [slab]) <==> SomeError(source, asked) || source(|asked|, slab).None?
  {
    if SomeError(source, asked) {
      var k :| 0 <= k < |asked| && source(k, asked[k]).None?;
      assert (asked + [slab])[k] == asked[k];
    } else if source(|asked|, slab).None? {
      assert (asked + [slab])[|asked|] == slab;
    }
  }

  /** The thread leaves schedule with an I/O error if and only if some call of run_once that
      was made has been answered with one. */
  lemma {:induction false} ErrorIff(data: int, source: EventSource, ms: seq<Move>, w: World)
    requires Play(Boot(1, data), ms) == Some(w) && Fitting(Boot(1, data), source, ms)
    ensures |w.sys.procs| == 1
    ensures w.sys.procs[0].pc == Exited(false) <==> SomeError(source, Asked(Boot(1, data), ms))
  {
    if ms != [] {
      hide Perform, CanMove, SomeError, Bears;
      var w0, init, m := Boot(1, data), ms[..|ms| - 1], ms[|ms| - 1];
      var v := Play(w0, init).value;
      ErrorIff(data, source, init, v);
      ErrorStep(v, m);
      SomeErrorSnoc(source, Asked(w0, init), SlabOf(v));
      if v.sys.procs[0].pc.Exited? {
        ExitedRests(v, m);
      } else if !IsPoll(m) {
        assert Asked(w0, ms) == Asked(w0, init);
      }
    }
  }

  // ---- the stack pool ---------------------------------------------------------------------

  lemma StacksOfEvent(s: Sys, e: Event)
    requires Enabled(s, e)
    ensures Apply(s, e).stacks == s.stacks + if Creates(e) then {e.stack} else {}
  {
  }

  lemma StacksOfMove(w: World, m: Move)
    requires CanMove(w, m) && |w.sys.procs| == 1
    ensures Perform(w, m).sys.stacks == w.sys.stacks + if Bears(w, m) then {m.stack} else {}
  {
    hide Apply, Behave;
    PerformRefines(w, m);
    BirthEvent(w, m);
    if EventOf(w, m).Some? {
      StacksOfEvent(w.sys, EventOf(w, m).value);
    } else {
      assert w.sys.stacks + {} == w.sys.stacks;
    }
  }

  lemma BirthEvent(w: World, m: Move)
    requires CanMove(w, m)
    ensures Bears(w, m) <==> EventOf(w, m).Some? && Creates(EventOf(w, m).value)
    ensures Bears(w, m) ==> EventOf(w, m).value.stack == m.stack
  {
  }

  lemma {:induction false} LiveStacks(stacks: set<Stack>, heap: map<Ptr, Coroutine>)
    requires forall st :: st in stacks ==> exists h :: h in heap && heap[h].stack == st
    ensures |stacks| <= |heap|
  {
    if st :| st in stacks {
      var h :| h in heap && heap[h].stack == st;
      forall x | x in stacks - {st} ensures exists g :: g in heap - {h} && (heap - {h})[g].stack == x {
        var g :| g in heap && heap[g].stack == x;
        assert g in heap - {h} && (heap - {h})[g].stack == x;
      }
      LiveStacks(stacks - {st}, heap - {h});
      assert heap.Keys == (heap - {h}).Keys + {h} && |heap.Keys| == |heap|;
    }
  }

  /** With an empty pool, there are as many stacks as live coroutines at most. */
  lemma UnpooledStacks(n: nat, es: seq<Event>, s: Sys)
    requires Exec(Init(n), es) == Some(s) && |s.procs| == 1 && s.procs[0].pool == {}
    ensures |s.stacks| <= |s.heap|
  {
    hide Exec;
    forall st | st in s.stacks ensures exists h :: h in s.heap && s.heap[h].stack == st {
      StacksConserved(n, es, s, st);
      var k :| Keeps(s, k, st);
      assert k.Live?;
    }
    LiveStacks(s.stacks, s.heap);
  }

  lemma PoolAfterBirth(w: World, m: Move)
    requires CanMove(w, m) && |w.sys.procs| == 1 && Bears(w, m) && PoolOf(w) == {}
    ensures |Perform(w, m).sys.procs| == 1 && Perform(w, m).sys.procs[0].pool == {}
  {
    hide Behave;
    PerformRefines(w, m);
    BirthEvent(w, m);
    PoolAfterCreate(w.sys, EventOf(w, m).value);
  }

  lemma PoolAfterCreate(s: Sys, e: Event)
    requires Enabled(s, e) && Creates(e) && |s.procs| == 1 && s.procs[0].pool == {}
    ensures |Apply(s, e).procs| == 1 && Apply(s, e).procs[0].pool == {}
  {
  }

  lemma {:induction false} OneProcessor(data: int, ms: seq<Move>, w: World)
    requires Play(Boot(1, data), ms) == Some(w)
    ensures |w.sys.procs| == 1
  {
    if ms != [] {
      OneProcessor(data, ms[..|ms| - 1], Play(Boot(1, data), ms[..|ms| - 1]).value);
    }
  }

  lemma FreshStack(data: int, ms: seq<Move>, w: World)
    requires Play(Boot(1, data), ms) == Some(w) && |w.sys.procs| == 1 && w.sys.procs[0].pool == {}
    ensures |w.sys.stacks| <= |w.sys.heap|
  {
    hide Play;
    PlayRefines(Boot(1, data), ms);
    UnpooledStacks(1, EventsOf(Boot(1, data), ms), w.sys);
  }

  /** Stacks are reused: on one processor whose pool is asked first, there was a moment at
      which at least as many coroutines were alive as stacks have ever been mapped. */
  lemma {:induction false} MappedWhileAlive(data: int, source: EventSource, ms: seq<Move>, w: World) returns (k: nat)
    requires Play(Boot(1, data), ms) == Some(w) && Fitting(Boot(1, data), source, ms)
    ensures k <= |ms| && Play(Boot(1, data), ms[..k]).Some?
    ensures |w.sys.stacks| <= |Play(Boot(1, data), ms[..k]).value.sys.heap|
  {
    k := 0;
    assert ms[..0] == [];
    if ms != [] {
      hide Perform, CanMove, Bears;
      var w0, init, m := Boot(1, data), ms[..|ms| - 1], ms[|ms| - 1];
      var v := Play(w0, init).value;
      k := MappedWhileAlive(data, source, init, v);
      assert init[..k] == ms[..k];
      OneProcessor(data, init, v);
      StacksOfMove(v, m);
      if Bears(v, m) && PoolOf(v) == {} {
        PoolAfterBirth(v, m);
        FreshStack(data, ms, w);
        k := |ms|;
        assert ms[..k] == ms;
      } else if Bears(v, m) {
        PooledIsMapped(data, init, v, m.stack);
        assert w.sys.stacks == v.sys.stacks;
      } else {
        assert w.sys.stacks == v.sys.stacks;
      }
    }
  }

  lemma PooledIsMapped(data: int, ms: seq<Move>, w: World, st: Stack)
    requires Play(Boot(1, data), ms) == Some(w) && st in PoolOf(w)
    ensures st in w.sys.stacks
  {
    hide Play;
    PlayRefines(Boot(1, data), ms);
    assert Keeps(w.sys, Pooled(0), st);
    StacksConserved(1, EventsOf(Boot(1, data), ms), w.sys, st);
  }

  lemma NobodyBeforeTrace(data: int, ms: seq<Move>, w: World)
    requires Play(Boot(1, data), ms) == Some(w) && w.trace == []
    ensures w.sys.heap == map[]
  {
    hide Play, Placed, Controlled, Booting, Accounted;
    PlayGood(1, data, ms);
    var pl :| Inv(w.sys, pl);
    assert |Scripts(w.ctxs)| == |w.ctxs| == 0;
    LiveAmongBorn(w.sys);
    assert |w.sys.heap| == 0;
  }

  /** ... so no more stacks are mapped than coroutines can be alive at a time. */
  lemma MappedWithinPeak(data: int, source: EventSource, ms: seq<Move>, w: World, script: seq<Action>)
    requires Play(Boot(1, data), ms) == Some(w) && Fitting(Boot(1, data), source, ms)
    requires w.trace != [] && w.trace[0] == Root(script)
    ensures |w.sys.stacks| <= Peak(script)
  {
    hide Play, Fitting, Peak;
    var k := MappedWhileAlive(data, source, ms, w);
    var v := Play(Boot(1, data), ms[..k]).value;
    TraceGrows(Boot(1, data), ms, k);
    if v.trace == [] {
      NobodyBeforeTrace(data, ms[..k], v);
    } else {
      LiveWithinPeak(data, ms[..k], v, script);
    }
  }
}
