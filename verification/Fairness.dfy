/** Progress and fairness of the ready queue. */
module Fairness {
  import opened Basics
  import opened Protocol
  import opened Ownership
  import opened Invariant
  import opened Safety

  /** The coroutine that an event makes a processor run. */
  function ResumedBy(s: Sys, e: Event): Option<Ptr>
    requires Enabled(s, e)
  {
    if e.Pop? && s.queue != [] then Some(s.queue[0])
    else if e.Drain? then s.procs[e.i].newSpawned
    else None
  }

  /** How many coroutines the processors pop from the queue during a run. */
  function PopCount(s: Sys, es: seq<Event>): nat
    requires Exec(s, es).Some?
  {
    if es == [] then 0 else
      var init := es[..|es| - 1];
      PopCount(s, init) + if es[|es| - 1].Pop? && Exec(s, init).value.queue != [] then 1 else 0
  }

  /** A queued coroutine moves up by one with every pop, whoever pops and whatever is
      pushed meanwhile; so the one at position k is taken by the (k+1)-th pop. */
  lemma {:induction false} FifoTurn(s: Sys, es: seq<Event>, k: nat)
    requires k < |s.queue| && Exec(s, es).Some? && PopCount(s, es) <= k
    ensures var s' := Exec(s, es).value; var d := k - PopCount(s, es);
      d < |s'.queue| && s'.queue[d] == s.queue[k]
  {
    hide Apply;
    if es != [] {
      var init, e := es[..|es| - 1], es[|es| - 1];
      FifoTurn(s, init, k);
      QueueStep(Exec(s, init).value, e);
    }
  }

  lemma PopTakes(s: Sys, i: nat)
    requires Enabled(s, Pop(i)) && s.queue != []
    ensures Apply(s, Pop(i)).procs[i].pc == Executing(s.queue[0])
  {
  }

  lemma FifoTaken(s: Sys, es: seq<Event>, k: nat, i: nat)
    requires k < |s.queue| && Exec(s, es).Some? && PopCount(s, es) == k
    requires Enabled(Exec(s, es).value, Pop(i))
    ensures Apply(Exec(s, es).value, Pop(i)).procs[i].pc == Executing(s.queue[k])
  {
    FifoTurn(s, es, k);
    PopTakes(Exec(s, es).value, i);
  }

  lemma QueueStep(s: Sys, e: Event)
    requires Enabled(s, e)
    ensures var q := Apply(s, e).queue;
      if e.Pop? && s.queue != [] then q == s.queue[1..] else s.queue <= q
  {
  }

  /** A processor holding a coroutine to push finds room for it at the first attempt as
      long as no more than 4096 coroutines are alive. */
  lemma PushSucceeds(n: nat, es: seq<Event>, s: Sys, i: nat)
    requires Exec(Init(n), es) == Some(s) && Enabled(s, Push(i)) && |s.heap| <= 4096
    ensures Apply(s, Push(i)).queue == s.queue + [s.procs[i].pc.hdl] && !Apply(s, Push(i)).procs[i].pc.Pushing?
  {
    var w := RunInv(n, es);
    PushFits(s, w, i);
    PushPushes(s, i);
  }

  lemma PushFits(s: Sys, w: map<Ptr, Place>, i: nat)
    requires Placed(s, w) && Enabled(s, Push(i))
    ensures |s.queue| < |s.heap|
  {
    hide NoDup;
    HdlHome(s, w, i);
    QueueFits(s, w, s.procs[i].pc.hdl);
  }

  lemma PushPushes(s: Sys, i: nat)
    requires Enabled(s, Push(i)) && |s.queue| < GLOBAL_QUEUE_SIZE
    ensures Apply(s, Push(i)).queue == s.queue + [s.procs[i].pc.hdl] && !Apply(s, Push(i)).procs[i].pc.Pushing?
  {
  }

  /** A live coroutine outside the queue leaves room for itself. */
  lemma QueueFits(s: Sys, w: map<Ptr, Place>, h: Ptr)
    requires Placed(s, w) && h in w && !w[h].Queued?
    ensures |s.queue| < |s.heap|
  {
    QueuePlaced(s, w);
    NoDupCard(s.queue);
    SubsetCard((set x | x in s.queue), s.heap.Keys - {h});
    assert |s.heap.Keys - {h}| == |s.heap.Keys| - 1;
  }

  ghost predicate HasWork(p: Proc) {
    p.newSpawned.Some? || p.slab != map[] || HasHdl(p.pc) || p.pc.TopCounted?
  }

  /** Counted work is somewhere: when nothing is queued, some processor holds it in hand,
      slot or slab, or is between counting and creating or between subtracting and
      dropping. */
  lemma WorkIsSomewhere(n: nat, es: seq<Event>, s: Sys)
    requires Exec(Init(n), es) == Some(s) && s.workCount != 0 && s.queue == []
    ensures exists i :: 0 <= i < |s.procs| && HasWork(s.procs[i])
  {
    var w := RunInv(n, es);
    WorkHasAPlace(s, w);
  }

  lemma WorkHasAPlace(s: Sys, w: map<Ptr, Place>)
    requires Placed(s, w) && Accounted(s) && s.workCount != 0 && s.queue == []
    ensures exists i :: 0 <= i < |s.procs| && HasWork(s.procs[i])
  {
    if h :| h in s.heap {
      assert Holds(s, w[h], h);
      assert HasWork(s.procs[w[h].i]);
    } else {
      assert Sum(PendingOf(s.procs)) != 0;
      var i := NonZeroTerm(PendingOf(s.procs));
      assert HasWork(s.procs[i]);
    }
  }

  lemma {:induction false} NonZeroTerm(xs: seq<int>) returns (k: nat)
    requires Sum(xs) != 0
    ensures k < |xs| && xs[k] != 0
  {
    k := |xs| - 1;
    if xs[k] == 0 {
      k := NonZeroTerm(xs[..k]);
    }
  }

  /** On one processor, the loop sleeps for lack of work only before the top-level
      coroutine has run: counted work with an empty queue and an empty slab means that
      new_spawned is full. */
  lemma SleepsOnlyAtBoot(es: seq<Event>, s: Sys)
    requires Exec(Init(1), es) == Some(s) && |s.procs| == 1
    requires s.procs[0].pc.Popping? || s.procs[0].pc.CheckingSlab? || s.procs[0].pc.CheckingCount?
    requires s.workCount != 0 && s.queue == [] && s.procs[0].slab == map[]
    ensures Boots(s.procs[0])
  {
    WorkIsSomewhere(1, es, s);
  }

  /** On one processor: b is queued, and a is being run or queued behind b. */
  ghost predicate Turn(s: Sys, b: Ptr, a: Ptr) {
    && |s.procs| == 1 && b in s.queue
    && (HandOf(s.procs[0]) == Some(a) || a in s.queue)
    && forall x, y :: 0 <= x < |s.queue| && 0 <= y < |s.queue| && s.queue[x] == b && s.queue[y] == a ==> x < y
  }

  /** h has not blocked or ended. */
  ghost predicate Runnable(s: Sys, h: Ptr) {
    |s.procs| == 1 && (h in s.queue || HandOf(s.procs[0]) == Some(h))
  }

  /** Of two runnable coroutines it is always the turn of one. */
  lemma TurnOfOne(s: Sys, w: map<Ptr, Place>, a: Ptr, b: Ptr)
    requires Placed(s, w) && a != b && Runnable(s, a) && Runnable(s, b)
    ensures Turn(s, b, a) || Turn(s, a, b)
  {
    QueuePlaced(s, w);
    assert ProcPlaced(s.procs[0], 0, w);
    if a in s.queue && b in s.queue {
      var x :| 0 <= x < |s.queue| && s.queue[x] == b;
      var y :| 0 <= y < |s.queue| && s.queue[y] == a;
      assert forall k :: 0 <= k < |s.queue| && s.queue[k] == b ==> k == x;
      assert forall k :: 0 <= k < |s.queue| && s.queue[k] == a ==> k == y;
    }
  }

  lemma TurnStep(s: Sys, w: map<Ptr, Place>, e: Event, b: Ptr, a: Ptr)
    requires Placed(s, w) && Legal(s, e) && a != b && Turn(s, b, a)
    requires Runnable(Apply(s, e), a) && Runnable(Apply(s, e), b)
    ensures if ResumedBy(s, e) == Some(b) then Turn(Apply(s, e), a, b)
            else ResumedBy(s, e) != Some(a) && Turn(Apply(s, e), b, a)
  {
    QueuePlaced(s, w);
    assert ProcPlaced(s.procs[0], 0, w);
    if e.Pop? && s.queue != [] {
      TurnPop(s, b, a);
    } else {
      QueueStep(s, e);
      TurnKept(s, e, b, a);
    }
  }

  lemma TurnKept(s: Sys, e: Event, b: Ptr, a: Ptr)
    requires Legal(s, e) && a != b && Turn(s, b, a) && Runnable(Apply(s, e), a)
    requires s.queue <= Apply(s, e).queue && !(e.Pop? && s.queue != [])
    requires forall h :: h in s.queue && HandOf(s.procs[0]) == Some(h) ==> false
    ensures Turn(Apply(s, e), b, a)
  {
    PushedFromHand(s, e);
    var q, q' := s.queue, Apply(s, e).queue;
    assert forall x :: 0 <= x < |q| ==> q'[x] == q[x];
    assert b in q';
  }

  lemma PushedFromHand(s: Sys, e: Event)
    requires Enabled(s, e) && !(e.Pop? && s.queue != [])
    ensures Apply(s, e).queue == s.queue ||
      (HandOf(s.procs[e.i]).Some? && Apply(s, e).queue == s.queue + [HandOf(s.procs[e.i]).value])
  {
  }

  lemma TurnPop(s: Sys, b: Ptr, a: Ptr)
    requires Legal(s, Pop(0)) && a != b && Turn(s, b, a) && NoDup(s.queue)
    ensures if s.queue[0] == b then Turn(Apply(s, Pop(0)), a, b)
            else s.queue[0] != a && Turn(Apply(s, Pop(0)), b, a)
  {
    var q, q' := s.queue, Apply(s, Pop(0)).queue;
    assert forall x :: 0 <= x < |q'| ==> q'[x] == q[x + 1];
    var x :| 0 <= x < |q| && q[x] == b;
    var y :| 0 <= y < |q| && q[y] == a;
    if x > 0 { assert q'[x - 1] == b; }
    if y > 0 { assert q'[y - 1] == a; }
  }

  /** The resumptions of a and b during a run, in order. */
  function Resumptions(s: Sys, es: seq<Event>, a: Ptr, b: Ptr): seq<Ptr>
    requires Exec(s, es).Some?
  {
    if es == [] then [] else
      var init := es[..|es| - 1];
      Resumptions(s, init, a, b) + Next(Exec(s, init).value, es[|es| - 1], a, b)
  }

  function Alternating(b: Ptr, a: Ptr, n: nat): seq<Ptr> {
    seq(n, k => if k % 2 == 0 then b else a)
  }

  /** a and b are runnable in every state of the run. */
  ghost predicate StayRunnable(s: Sys, es: seq<Event>, a: Ptr, b: Ptr)
    requires Exec(s, es).Some?
  {
    && Runnable(Exec(s, es).value, a) && Runnable(Exec(s, es).value, b)
    && (es != [] ==> StayRunnable(s, es[..|es| - 1], a, b))
  }

  lemma {:induction false} SegmentInv(s: Sys, w: map<Ptr, Place>, es: seq<Event>) returns (w': map<Ptr, Place>)
    requires Inv(s, w) && Exec(s, es).Some?
    ensures Inv(Exec(s, es).value, w')
  {
    w' := w;
    if es != [] {
      var init := es[..|es| - 1];
      var w1 := SegmentInv(s, w, init);
      InvStep(Exec(s, init).value, w1, es[|es| - 1]);
      w' := Moved(Exec(s, init).value, w1, es[|es| - 1]);
    }
  }

  lemma AlternatingSnoc(b: Ptr, a: Ptr, n: nat)
    ensures Alternating(b, a, n + 1) == Alternating(b, a, n) + [if n % 2 == 0 then b else a]
  {
  }

  /** Whose turn it is after n resumptions. */
  ghost predicate TurnAfter(s: Sys, n: nat, b: Ptr, a: Ptr) {
    if n % 2 == 0 then Turn(s, b, a) else Turn(s, a, b)
  }

  function Next(s: Sys, e: Event, a: Ptr, b: Ptr): seq<Ptr>
    requires Enabled(s, e)
  {
    var r := ResumedBy(s, e);
    if r == Some(a) || r == Some(b) then [r.value] else []
  }

  lemma TurnTaken(s: Sys, w: map<Ptr, Place>, e: Event, n: nat, x: Ptr, y: Ptr, b: Ptr, a: Ptr)
    requires Placed(s, w) && Legal(s, e) && a != b && Turn(s, x, y)
    requires x == (if n % 2 == 0 then b else a) && y == (if n % 2 == 0 then a else b)
    requires Runnable(Apply(s, e), y) && Runnable(Apply(s, e), x)
    ensures TurnAfter(Apply(s, e), n + |Next(s, e, a, b)|, b, a)
    ensures Next(s, e, a, b) != [] ==> Next(s, e, a, b) == [x]
  {
    hide Turn, Apply, Runnable, Placed;
    TurnStep(s, w, e, x, y);
    TurnFlip(Apply(s, e), ResumedBy(s, e), x, y, n, b, a);
  }

  lemma RoundRobinStep(s: Sys, w: map<Ptr, Place>, e: Event, n: nat, b: Ptr, a: Ptr)
    requires Placed(s, w) && Legal(s, e) && a != b && TurnAfter(s, n, b, a)
    requires Runnable(Apply(s, e), a) && Runnable(Apply(s, e), b)
    ensures TurnAfter(Apply(s, e), n + |Next(s, e, a, b)|, b, a)
    ensures Next(s, e, a, b) != [] ==> Next(s, e, a, b) == [if n % 2 == 0 then b else a]
  {
    if n % 2 == 0 {
      TurnTaken(s, w, e, n, b, a, b, a);
    } else {
      TurnTaken(s, w, e, n, a, b, b, a);
    }
  }

  lemma TurnFlip(s: Sys, r: Option<Ptr>, x: Ptr, y: Ptr, n: nat, b: Ptr, a: Ptr)
    requires a != b && x == (if n % 2 == 0 then b else a) && y == (if n % 2 == 0 then a else b)
    requires if r == Some(x) then Turn(s, y, x) else r != Some(y) && Turn(s, x, y)
    ensures TurnAfter(s, n + if r == Some(a) || r == Some(b) then 1 else 0, b, a)
    ensures r == Some(a) || r == Some(b) ==> r == Some(x)
  {
  }

  /** Round robin on one processor: two coroutines that stay runnable are resumed in
      strict alternation, whatever other coroutines are spawned, woken or finished. */
  lemma {:induction false} RoundRobin(s: Sys, w: map<Ptr, Place>, es: seq<Event>, b: Ptr, a: Ptr)
    requires Inv(s, w) && a != b && Turn(s, b, a) && Exec(s, es).Some? && StayRunnable(s, es, a, b)
    ensures var rs := Resumptions(s, es, a, b);
      rs == Alternating(b, a, |rs|) && TurnAfter(Exec(s, es).value, |rs|, b, a)
  {
    if es != [] {
      var init, e := es[..|es| - 1], es[|es| - 1];
      RoundRobin(s, w, init, b, a);
      var w1 := SegmentInv(s, w, init);
      var m := Exec(s, init).value;
      var n := |Resumptions(s, init, a, b)|;
      RoundRobinStep(m, w1, e, n, b, a);
      AlternatingSnoc(b, a, n);
    }
  }
}
