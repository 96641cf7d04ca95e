/** Stacks migrate between threads: a coroutine may be spawned on one processor and
    dropped on another, whose pool then receives the stack. */
module Stacks {
  import opened Basics
  import opened Protocol
  import opened Invariant
  import opened Safety

  datatype Keeper = Live(h: Ptr) | Pooled(i: nat)

  ghost predicate Keeps(s: Sys, k: Keeper, st: Stack) {
    match k
    case Live(h) => h in s.heap && s.heap[h].stack == st
    case Pooled(i) => i < |s.procs| && st in s.procs[i].pool
  }

  /** `k` gives every stack ever mapped its one keeper. */
  ghost predicate Kept(s: Sys, k: map<Stack, Keeper>) {
    && k.Keys == s.stacks
    && (forall h :: h in s.heap ==> s.heap[h].stack in k && k[s.heap[h].stack] == Live(h))
    && (forall i, st :: 0 <= i < |s.procs| && st in s.procs[i].pool ==> st in k && k[st] == Pooled(i))
    && (forall st :: st in k ==> Keeps(s, k[st], st))
  }

  function Rekept(s: Sys, k: map<Stack, Keeper>, e: Event): map<Stack, Keeper>
    requires Enabled(s, e)
  {
    if Creates(e) then k[e.stack := Live(e.ptr)]
    else if e.Free? then k[s.heap[s.procs[e.i].pc.hdl].stack := Pooled(e.i)]
    else k
  }

  lemma PoolFrame(s: Sys, e: Event)
    requires Legal(s, e) && !Creates(e) && !e.Free?
    ensures Apply(s, e).procs[e.i].pool == s.procs[e.i].pool && Apply(s, e).stacks == s.stacks
  {
  }

  lemma CreateFrame(s: Sys, e: Event)
    requires Legal(s, e) && Creates(e)
    ensures var s' := Apply(s, e);
      && s'.heap == s.heap[e.ptr := Coroutine(|s.births|, e.stack, false)] && e.ptr !in s.heap
      && s'.stacks == s.stacks + {e.stack}
      && s'.procs[e.i].pool == s.procs[e.i].pool - {e.stack}
      && (e.stack in s.procs[e.i].pool || e.stack !in s.stacks)
  {
  }

  lemma CreateKept(s: Sys, s': Sys, k: map<Stack, Keeper>, i: nat, ptr: Ptr, c: Coroutine)
    requires Kept(s, k) && i < |s.procs| == |s'.procs| && ptr !in s.heap
    requires c.stack in s.procs[i].pool || c.stack !in s.stacks
    requires s'.heap == s.heap[ptr := c] && s'.stacks == s.stacks + {c.stack}
    requires s'.procs[i].pool == s.procs[i].pool - {c.stack}
    requires forall j :: 0 <= j < |s.procs| && j != i ==> s'.procs[j] == s.procs[j]
    ensures Kept(s', k[c.stack := Live(ptr)])
  {
    forall st | st in k && st != c.stack ensures Keeps(s', k[st], st) {
      assert Keeps(s, k[st], st);
    }
  }

  lemma FreeKept(s: Sys, k: map<Stack, Keeper>, i: nat)
    requires Kept(s, k) && Legal(s, Free(i))
    ensures Kept(Apply(s, Free(i)), Rekept(s, k, Free(i)))
  {
    var s', c := Apply(s, Free(i)), s.heap[s.procs[i].pc.hdl];
    forall st | st in k && st != c.stack ensures Keeps(s', k[st], st) {
      assert Keeps(s, k[st], st);
    }
  }

  lemma KeptStep(s: Sys, k: map<Stack, Keeper>, e: Event)
    requires Kept(s, k) && Legal(s, e)
    ensures Kept(Apply(s, e), Rekept(s, k, e))
  {
    hide Apply;
    if Creates(e) {
      CreateFrame(s, e);
      CreateKept(s, Apply(s, e), k, e.i, e.ptr, Coroutine(|s.births|, e.stack, false));
    } else if e.Free? {
      FreeKept(s, k, e.i);
    } else {
      HeapFrame(s, e);
      PoolFrame(s, e);
      forall st | st in k ensures Keeps(Apply(s, e), k[st], st) {
        assert Keeps(s, k[st], st);
      }
    }
  }

  lemma {:induction false} RunKept(n: nat, es: seq<Event>) returns (k: map<Stack, Keeper>)
    requires Exec(Init(n), es).Some?
    ensures Kept(Exec(Init(n), es).value, k)
  {
    if es == [] {
      k := map[];
    } else {
      var init := es[..|es| - 1];
      var k0 := RunKept(n, init);
      KeptStep(Exec(Init(n), init).value, k0, es[|es| - 1]);
      k := Rekept(Exec(Init(n), init).value, k0, es[|es| - 1]);
    }
  }

  /** Stacks are conserved: every stack ever mapped is either in exactly one processor's
      pool or owned by exactly one live coroutine. */
  lemma StacksConserved(n: nat, es: seq<Event>, s: Sys, st: Stack)
    requires Exec(Init(n), es) == Some(s)
    ensures st in s.stacks <==> exists k :: Keeps(s, k, st)
    ensures forall k, k' :: Keeps(s, k, st) && Keeps(s, k', st) ==> k == k'
  {
    var k := RunKept(n, es);
    KeptOnce(s, k, st);
  }

  lemma KeptOnce(s: Sys, k: map<Stack, Keeper>, st: Stack)
    requires Kept(s, k)
    ensures st in s.stacks <==> exists x :: Keeps(s, x, st)
    ensures forall x, y :: Keeps(s, x, st) && Keeps(s, y, st) ==> x == y
  {
    if st in s.stacks {
      assert Keeps(s, k[st], st);
    }
  }

  lemma OwnedNotPooled(s: Sys, k: map<Stack, Keeper>, h: Ptr, i: nat)
    requires Kept(s, k) && h in s.heap && i < |s.procs|
    ensures s.heap[h].stack !in s.procs[i].pool
  {
  }

  /** A stack reaches a pool only when no processor works on its coroutine: neither the
      dropping one nor any other. */
  lemma PooledStacksAreIdle(n: nat, es: seq<Event>, s: Sys, i: nat, j: nat)
    requires Exec(Init(n), es) == Some(s) && i < |s.procs| && j < |s.procs| && HasHdl(s.procs[j].pc)
    ensures s.procs[j].pc.hdl in s.heap && s.heap[s.procs[j].pc.hdl].stack !in s.procs[i].pool
  {
    LegalRun(n, es);
    NeverTwice(n, es, s, j, j);
    var k := RunKept(n, es);
    OwnedNotPooled(s, k, s.procs[j].pc.hdl, i);
  }
}
