/** What one batch of events does to the slab: each waiting entry is woken at most once,
    whatever duplicate, stale or unknown tokens the batch contains. */
module Wakeups {
  import opened Basics
  import opened Protocol

  /** The coroutines that a batch wakes, in order. */
  function Woken(slab: map<Token, Ptr>, batch: seq<Token>): seq<Ptr> {
    if batch == [] then []
    else if batch[0] in slab then [slab[batch[0]]] + Woken(slab - {batch[0]}, batch[1..])
    else Woken(slab, batch[1..])
  }

  function Remaining(slab: map<Token, Ptr>, batch: seq<Token>): map<Token, Ptr> {
    map t | t in slab && t !in batch :: slab[t]
  }

  ghost predicate Injective(slab: map<Token, Ptr>) {
    forall t, u :: t in slab && u in slab && slab[t] == slab[u] ==> t == u
  }

  /** Exactly the coroutines whose tokens are in the batch are woken. */
  lemma {:induction false} WokenExactly(slab: map<Token, Ptr>, batch: seq<Token>, h: Ptr)
    ensures h in Woken(slab, batch) <==> exists t :: t in slab && t in batch && slab[t] == h
    decreases batch
  {
    if batch != [] {
      var t0, rest := batch[0], batch[1..];
      assert forall t :: t in batch <==> t == t0 || t in rest;
      if t0 in slab {
        WokenExactly(slab - {t0}, rest, h);
        if h in Woken(slab - {t0}, rest) {
          var t :| t in slab - {t0} && t in rest && (slab - {t0})[t] == h;
          assert t in slab && t in batch && slab[t] == h;
        }
      } else {
        WokenExactly(slab, rest, h);
      }
    }
  }

  lemma RemainingStep(slab: map<Token, Ptr>, batch: seq<Token>)
    requires batch != []
    ensures Remaining(slab, batch) == Remaining(slab - {batch[0]}, batch[1..])
  {
    assert forall t :: t in batch <==> t == batch[0] || t in batch[1..];
  }

  lemma WokenStep(slab: map<Token, Ptr>, t: Token, rest: seq<Token>)
    ensures Woken(slab, [t] + rest) == (if t in slab then [slab[t]] else []) + Woken(slab - {t}, rest)
  {
    assert ([t] + rest)[1..] == rest;
    if t !in slab {
      assert slab - {t} == slab;
    }
  }

  lemma RemoveCard(slab: map<Token, Ptr>, t: Token)
    ensures |slab| == |slab - {t}| + if t in slab then 1 else 0
  {
    if t in slab {
      assert slab == (slab - {t})[t := slab[t]];
    } else {
      assert slab == slab - {t};
    }
  }

  /** The slab shrinks by exactly the number of coroutines queued. */
  lemma {:induction false} WokenCounts(slab: map<Token, Ptr>, batch: seq<Token>)
    ensures |slab| == |Remaining(slab, batch)| + |Woken(slab, batch)|
    decreases batch
  {
    if batch == [] {
      assert Remaining(slab, batch) == slab;
    } else {
      var t, rest := batch[0], batch[1..];
      WokenCounts(slab - {t}, rest);
      RemainingStep(slab, batch);
      assert batch == [t] + rest;
      WokenStep(slab, t, rest);
      RemoveCard(slab, t);
    }
  }

  /** No coroutine is queued twice by a batch. */
  lemma {:induction false} WokenOnce(slab: map<Token, Ptr>, batch: seq<Token>)
    requires Injective(slab)
    ensures NoDup(Woken(slab, batch))
    decreases batch
  {
    if batch != [] {
      var t := batch[0];
      if t in slab {
        WokenOnce(slab - {t}, batch[1..]);
        WokenExactly(slab - {t}, batch[1..], slab[t]);
      } else {
        WokenOnce(slab, batch[1..]);
      }
    }
  }

  /** After the first i events of a batch: what is left in the slab and what has been queued
      account, together with the rest of the batch, for the whole of it. */
  ghost predicate Delivered(slab0: map<Token, Ptr>, queue0: seq<Ptr>, batch: seq<Token>, i: nat,
                            slab: map<Token, Ptr>, queue: seq<Ptr>) {
    && i <= |batch|
    && Remaining(slab, batch[i..]) == Remaining(slab0, batch)
    && queue + Woken(slab, batch[i..]) == queue0 + Woken(slab0, batch)
  }

  lemma DeliveredNone(slab0: map<Token, Ptr>, queue0: seq<Ptr>, batch: seq<Token>)
    ensures batch[0..] == batch && Delivered(slab0, queue0, batch, 0, slab0, queue0)
  {
    assert batch[0..] == batch;
  }

  lemma DeliveredStep(slab0: map<Token, Ptr>, queue0: seq<Ptr>, batch: seq<Token>, i: nat,
                      slab: map<Token, Ptr>, queue: seq<Ptr>)
    requires Delivered(slab0, queue0, batch, i, slab, queue) && i < |batch|
    ensures batch[i..] == [batch[i]] + batch[i + 1..]
    ensures Delivered(slab0, queue0, batch, i + 1, slab - {batch[i]},
                      queue + if batch[i] in slab then [slab[batch[i]]] else [])
  {
    var t, rest := batch[i], batch[i + 1..];
    assert batch[i..] == [t] + rest && batch[i..][1..] == rest;
    RemainingStep(slab, batch[i..]);
    WokenStep(slab, t, rest);
    var first := if t in slab then [slab[t]] else [];
    assert queue + (first + Woken(slab - {t}, rest)) == (queue + first) + Woken(slab - {t}, rest);
  }

  lemma DeliveredAll(slab0: map<Token, Ptr>, queue0: seq<Ptr>, batch: seq<Token>, slab: map<Token, Ptr>,
    queue: seq<Ptr>)
    requires Delivered(slab0, queue0, batch, |batch|, slab, queue)
    ensures slab == Remaining(slab0, batch) && queue == queue0 + Woken(slab0, batch)
    ensures (exists j :: 0 <= j < |batch| && batch[j] in slab0) ==> slab != slab0
  {
    assert batch[|batch|..] == [];
    assert Remaining(slab, []) == slab;
  }
}
