/** Stride scheduling in a weighted-fair traffic class: runnable children in a
    min-queue by pass, blocked children in a list that remembers a penalty. */
module Stride {
  import opened ExtendedPriorityQueue

  const STRIDE1: nat := 1048576
  const QUANTUM: nat := 1024

  datatype Share<C> = Share(stride: nat, c: C)

  // The key is pass while the child is runnable and remain while it is blocked.
  type Child<C> = Entry<Share<C>>

  datatype Fair<C> = Fair(runnable: seq<Child<C>>, blocked: seq<Child<C>>)

  ghost function Bag<C>(f: Fair<C>): multiset<Child<C>> {
    multiset(f.runnable) + multiset(f.blocked)
  }

  // Every class occurs in at most one entry, once.
  ghost predicate Distinct<C>(m: multiset<Child<C>>) {
    && (forall x :: x in m ==> m[x] == 1)
    && (forall x, y :: x in m && y in m && x.val.c == y.val.c ==> x == y)
  }

  ghost predicate Valid<C>(f: Fair<C>) {
    IsHeap(f.runnable) && Distinct(Bag(f))
  }

  ghost function Ids<C>(q: seq<Child<C>>): set<C> {
    set x | x in q :: x.val.c
  }

  ghost function BagIds<C>(m: multiset<Child<C>>): set<C> {
    set x | x in m :: x.val.c
  }

  lemma IdsOfBag<C>(q: seq<Child<C>>)
    ensures Ids(q) == BagIds(multiset(q))
  {
    assert forall x :: x in q <==> x in multiset(q);
  }

  lemma RunnableBlockedDisjoint<C>(f: Fair<C>)
    requires Valid(f)
    ensures Ids(f.runnable) !! Ids(f.blocked)
  {
    forall x, y | x in f.runnable && y in f.blocked ensures x.val.c != y.val.c {
      assert x in Bag(f) && y in Bag(f);
      assert multiset(f.runnable)[x] > 0 && multiset(f.blocked)[y] > 0;
    }
  }

  // Replacing an entry by one for the same class keeps classes distinct.
  lemma Rekey<C>(m: multiset<Child<C>>, x: Child<C>, y: Child<C>)
    requires Distinct(m) && x in m && x.val.c == y.val.c
    ensures Distinct(m - multiset{x} + multiset{y})
    ensures BagIds(m - multiset{x} + multiset{y}) == BagIds(m)
  {
    var n := m - multiset{x} + multiset{y};
    forall z | z in n ensures z == y || (z in m && z != x) {}
    forall z | z in m && z != x ensures z in n {}
  }

  lemma Drop<C>(m: multiset<Child<C>>, x: Child<C>)
    requires Distinct(m) && x in m
    ensures Distinct(m - multiset{x})
    ensures BagIds(m - multiset{x}) == BagIds(m) - {x.val.c}
  {
    var n := m - multiset{x};
    forall z | z in n ensures z in m && z != x {}
    forall z | z in m && z != x ensures z in n {}
  }

  // The pass of the child to be scheduled next, 0 when nobody is runnable.
  function NextPass<C>(f: Fair<C>): (p: int) {
    if f.runnable == [] then 0 else f.runnable[0].key
  }

  function PassDelta(stride: nat, consumed: nat): (d: nat) {
    stride * consumed / QUANTUM
  }

  // ---- what each operation does to the two collections -------------------

  function Charge<C>(x: Child<C>, consumed: nat): Child<C> {
    x.(key := x.key + PassDelta(x.val.stride, consumed))
  }

  function Penalise<C>(x: Child<C>, consumed: nat): Child<C> {
    x.(key := PassDelta(x.val.stride, consumed))
  }

  // The front child ran and stays runnable: its pass advances.
  ghost predicate Charged<C>(f: Fair<C>, g: Fair<C>, consumed: nat) {
    && f.runnable != [] && g.blocked == f.blocked && IsHeap(g.runnable)
    && multiset(g.runnable)
       == multiset(f.runnable) - multiset{f.runnable[0]} + multiset{Charge(f.runnable[0], consumed)}
  }

  // The front child ran and blocked: its penalty is what it just used.
  ghost predicate Parked<C>(f: Fair<C>, g: Fair<C>, consumed: nat) {
    && f.runnable != [] && g.blocked == f.blocked + [Penalise(f.runnable[0], consumed)]
    && IsHeap(g.runnable) && multiset(g.runnable) == multiset(f.runnable) - multiset{f.runnable[0]}
  }

  // The i-th blocked child became runnable, penalty above the next pass.
  ghost predicate Woken<C>(f: Fair<C>, g: Fair<C>, i: nat) {
    && i < |f.blocked| && g.blocked == Without(f.blocked, i) && IsHeap(g.runnable)
    && multiset(g.runnable)
       == multiset(f.runnable) + multiset{f.blocked[i].(key := NextPass(f) + f.blocked[i].key)}
  }

  // A runnable child was stopped by BlockTowardsRoot: its pass is kept as it is.
  ghost predicate Stopped<C>(f: Fair<C>, g: Fair<C>, e: Child<C>) {
    && e in f.runnable && g.blocked == f.blocked + [e]
    && IsHeap(g.runnable) && multiset(g.runnable) == multiset(f.runnable) - multiset{e}
  }

  ghost predicate Attached<C>(f: Fair<C>, g: Fair<C>, x: Child<C>) {
    && x.key == NextPass(f) && g.blocked == f.blocked
    && IsHeap(g.runnable) && multiset(g.runnable) == multiset(f.runnable) + multiset{x}
  }

  ghost predicate Detached<C>(f: Fair<C>, g: Fair<C>, e: Child<C>) {
    && e in f.runnable && g.blocked == f.blocked
    && IsHeap(g.runnable) && multiset(g.runnable) == multiset(f.runnable) - multiset{e}
  }

  // A child attached while blocked: the next pass is stored where a penalty is
  // read later.
  ghost predicate AttachedBlocked<C>(f: Fair<C>, g: Fair<C>, x: Child<C>) {
    x.key == NextPass(f) && g == f.(blocked := f.blocked + [x])
  }

  ghost predicate DetachedBlocked<C>(f: Fair<C>, g: Fair<C>, i: nat) {
    i < |f.blocked| && g == f.(blocked := Without(f.blocked, i))
  }

  // ---- every operation keeps the classes apart and moves the right ones ---

  lemma ChargedKeeps<C>(f: Fair<C>, g: Fair<C>, consumed: nat)
    requires Valid(f) && Charged(f, g, consumed)
    ensures Valid(g) && Ids(g.runnable) == Ids(f.runnable) && Ids(g.blocked) == Ids(f.blocked)
  {
    var t := f.runnable[0];
    assert t in multiset(f.runnable) && t in Bag(f);
    Rekey(Bag(f), t, Charge(t, consumed));
    assert Bag(g) == Bag(f) - multiset{t} + multiset{Charge(t, consumed)};
    SubDistinct(Bag(f), multiset(f.runnable));
    Rekey(multiset(f.runnable), t, Charge(t, consumed));
    IdsOfBag(f.runnable);
    IdsOfBag(g.runnable);
  }

  lemma SubDistinct<C>(m: multiset<Child<C>>, n: multiset<Child<C>>)
    requires Distinct(m) && n <= m
    ensures Distinct(n)
  {
    forall x | x in n ensures n[x] == 1 && x in m {
      assert x in m;
    }
  }

  lemma IdsAppend<C>(q: seq<Child<C>>, x: Child<C>)
    ensures Ids(q + [x]) == Ids(q) + {x.val.c}
  {
    forall c | c in Ids(q) + {x.val.c} ensures c in Ids(q + [x]) {
      if c in Ids(q) {
        var y :| y in q && y.val.c == c;
        assert y in q + [x];
      } else {
        assert x in q + [x];
      }
    }
  }

  lemma ParkedKeeps<C>(f: Fair<C>, g: Fair<C>, consumed: nat)
    requires Valid(f) && Parked(f, g, consumed)
    ensures Valid(g)
    ensures Ids(g.runnable) == Ids(f.runnable) - {f.runnable[0].val.c}
    ensures Ids(g.blocked) == Ids(f.blocked) + {f.runnable[0].val.c}
  {
    var t := f.runnable[0];
    var p := Penalise(t, consumed);
    assert t in multiset(f.runnable) && t in Bag(f);
    Rekey(Bag(f), t, p);
    assert multiset(g.blocked) == multiset(f.blocked) + multiset{p};
    assert Bag(g) == Bag(f) - multiset{t} + multiset{p};
    SubDistinct(Bag(f), multiset(f.runnable));
    Drop(multiset(f.runnable), t);
    IdsOfBag(f.runnable);
    IdsOfBag(g.runnable);
    IdsAppend(f.blocked, p);
  }

  lemma BlockedWithout<C>(f: Fair<C>, i: nat)
    requires Valid(f) && i < |f.blocked|
    ensures Valid(f.(blocked := Without(f.blocked, i)))
    ensures Ids(Without(f.blocked, i)) == Ids(f.blocked) - {f.blocked[i].val.c}
    ensures f.blocked[i].val.c !in Ids(f.runnable)
  {
    var b := f.blocked[i];
    WithoutBag(f.blocked, i);
    assert b in multiset(f.blocked);
    SubDistinct(Bag(f), multiset(f.blocked));
    SubDistinct(Bag(f), Bag(f.(blocked := Without(f.blocked, i))));
    Drop(multiset(f.blocked), b);
    IdsOfBag(f.blocked);
    IdsOfBag(Without(f.blocked, i));
    RunnableBlockedDisjoint(f);
  }

  lemma IdsJoin<C>(q: seq<Child<C>>, r: seq<Child<C>>, x: Child<C>)
    requires multiset(r) == multiset(q) + multiset{x}
    ensures Ids(r) == Ids(q) + {x.val.c}
  {
    IdsAppend(q, x);
    IdsOfBag(q + [x]);
    IdsOfBag(r);
    assert multiset(q + [x]) == multiset(r);
  }

  lemma WokenKeeps<C>(f: Fair<C>, g: Fair<C>, i: nat)
    requires Valid(f) && Woken(f, g, i)
    ensures Valid(g)
    ensures Ids(g.runnable) == Ids(f.runnable) + {f.blocked[i].val.c}
    ensures Ids(g.blocked) == Ids(f.blocked) - {f.blocked[i].val.c}
  {
    var b := f.blocked[i];
    var w := b.(key := NextPass(f) + b.key);
    BlockedWithout(f, i);
    assert Ids(g.runnable) == Ids(f.runnable) + {w.val.c} by { IdsJoin(f.runnable, g.runnable, w); }
    assert Distinct(Bag(g)) by {
      WithoutBag(f.blocked, i);
      assert b in multiset(f.blocked) && b in Bag(f);
      assert Bag(g) == Bag(f) - multiset{b} + multiset{w};
      Rekey(Bag(f), b, w);
    }
  }

  lemma StoppedKeeps<C>(f: Fair<C>, g: Fair<C>, e: Child<C>)
    requires Valid(f) && Stopped(f, g, e)
    ensures Valid(g)
    ensures Ids(g.runnable) == Ids(f.runnable) - {e.val.c}
    ensures Ids(g.blocked) == Ids(f.blocked) + {e.val.c}
  {
    assert e in multiset(f.runnable);
    assert multiset(g.blocked) == multiset(f.blocked) + multiset{e};
    assert Bag(g) == Bag(f);
    SubDistinct(Bag(f), multiset(f.runnable));
    Drop(multiset(f.runnable), e);
    IdsOfBag(f.runnable);
    IdsOfBag(g.runnable);
    IdsAppend(f.blocked, e);
  }

  lemma JoinDistinct<C>(m: multiset<Child<C>>, x: Child<C>)
    requires Distinct(m) && x.val.c !in BagIds(m)
    ensures Distinct(m + multiset{x}) && BagIds(m + multiset{x}) == BagIds(m) + {x.val.c}
  {
    forall y | y in m ensures y.val.c != x.val.c {}
    forall y | y in m + multiset{x} ensures y in m || y == x {}
    forall y | y in m || y == x ensures y in m + multiset{x} {}
  }

  lemma BagIdsSum<C>(f: Fair<C>)
    ensures BagIds(Bag(f)) == Ids(f.runnable) + Ids(f.blocked)
  {
    forall x ensures x in Bag(f) <==> x in f.runnable || x in f.blocked {
      assert x in f.runnable <==> x in multiset(f.runnable);
      assert x in f.blocked <==> x in multiset(f.blocked);
    }
  }

  lemma AttachedKeeps<C>(f: Fair<C>, g: Fair<C>, x: Child<C>)
    requires Valid(f) && Attached(f, g, x) && x.val.c !in Ids(f.runnable) + Ids(f.blocked)
    ensures Valid(g)
    ensures Ids(g.runnable) == Ids(f.runnable) + {x.val.c} && Ids(g.blocked) == Ids(f.blocked)
  {
    BagIdsSum(f);
    JoinDistinct(Bag(f), x);
    assert Bag(g) == Bag(f) + multiset{x};
    IdsJoin(f.runnable, g.runnable, x);
  }

  lemma AttachedBlockedKeeps<C>(f: Fair<C>, g: Fair<C>, x: Child<C>)
    requires Valid(f) && AttachedBlocked(f, g, x) && x.val.c !in Ids(f.runnable) + Ids(f.blocked)
    ensures Valid(g)
    ensures Ids(g.runnable) == Ids(f.runnable) && Ids(g.blocked) == Ids(f.blocked) + {x.val.c}
  {
    BagIdsSum(f);
    JoinDistinct(Bag(f), x);
    assert multiset(g.blocked) == multiset(f.blocked) + multiset{x};
    assert Bag(g) == Bag(f) + multiset{x};
    IdsAppend(f.blocked, x);
  }

  lemma DetachedKeeps<C>(f: Fair<C>, g: Fair<C>, e: Child<C>)
    requires Valid(f) && Detached(f, g, e)
    ensures Valid(g)
    ensures Ids(g.runnable) == Ids(f.runnable) - {e.val.c} && g.blocked == f.blocked
    ensures e.val.c !in Ids(f.blocked)
  {
    RunnableBlockedDisjoint(f);
    SubDistinct(Bag(f), Bag(g));
    SubDistinct(Bag(f), multiset(f.runnable));
    assert e in multiset(f.runnable);
    Drop(multiset(f.runnable), e);
    IdsOfBag(f.runnable);
    IdsOfBag(g.runnable);
  }

  // ---- the operations -----------------------------------------------------

  // FinishAndAccountTowardsRoot on the two collections.
  method Finish<C>(f: Fair<C>, childBlocked: bool, consumed: nat) returns (g: Fair<C>)
    requires Valid(f) && f.runnable != []
    ensures Valid(g)
    ensures if childBlocked then Parked(f, g, consumed) else Charged(f, g, consumed)
    ensures var moved := if childBlocked then {f.runnable[0].val.c} else {};
            Ids(g.runnable) == Ids(f.runnable) - moved && Ids(g.blocked) == Ids(f.blocked) + moved
  {
    var item := f.runnable[0];
    var passDelta := PassDelta(item.val.stride, consumed);
    if childBlocked {
      var rest := Pop(f.runnable);
      g := Fair(rest, f.blocked + [item.(key := passDelta)]);
      ParkedKeeps(f, g, consumed);
    } else {
      var charged := item.(key := item.key + passDelta);
      ChargeOpensHole(f.runnable, charged);
      var sifted := DecreaseKeyTop(f.runnable[0 := charged]);
      g := f.(runnable := sifted);
      ChargedKeeps(f, g, consumed);
    }
  }

  lemma ChargeOpensHole<C>(q: seq<Child<C>>, x: Child<C>)
    requires IsHeap(q) && q != []
    ensures HoleAt(q[0 := x], 0)
    ensures multiset(q[0 := x]) == multiset(q) - multiset{q[0]} + multiset{x}
  {
    var v := q[0 := x];
    forall i | 0 < i < |v| && Parent(i) != 0 ensures OrderedAt(v, i) {
      assert OrderedAt(q, i);
    }
  }

  ghost predicate WokeOne<C>(f: Fair<C>, g: Fair<C>) {
    exists i: nat :: Woken(f, g, i)
  }

  // Consecutive states of the trace differ by waking one child.
  ghost predicate WakeTrace<C>(trace: seq<Fair<C>>, f: Fair<C>, g: Fair<C>) {
    && trace != [] && trace[0] == f && trace[|trace| - 1] == g
    && (forall k {:trigger trace[k]} :: 0 <= k < |trace| - 1 ==> WokeOne(trace[k], trace[k + 1]))
  }

  lemma ExtendWakeTrace<C>(trace: seq<Fair<C>>, f: Fair<C>, g: Fair<C>, h: Fair<C>, i: nat)
    requires WakeTrace(trace, f, g) && Woken(g, h, i)
    ensures WakeTrace(trace + [h], f, h)
  {
    assert WokeOne(g, h);
  }

  // Progress of the scan over the blocked list.
  ghost predicate Scanned<C>(f: Fair<C>, g: Fair<C>, i: nat, flagged: set<C>) {
    && i <= |g.blocked| && Valid(g)
    && (forall j :: 0 <= j < i ==> g.blocked[j].val.c in flagged)
    && multiset(f.runnable) <= multiset(g.runnable) && multiset(g.blocked) <= multiset(f.blocked)
    && Ids(f.blocked) * flagged <= Ids(g.blocked) <= Ids(f.blocked)
    && Ids(g.runnable) == Ids(f.runnable) + (Ids(f.blocked) - Ids(g.blocked))
  }

  lemma ScanStep<C>(f: Fair<C>, g: Fair<C>, h: Fair<C>, i: nat, flagged: set<C>)
    requires Scanned(f, g, i, flagged) && Woken(g, h, i) && g.blocked[i].val.c !in flagged
    ensures Scanned(f, h, i, flagged)
  {
    WokenKeeps(g, h, i);
    WithoutBag(g.blocked, i);
    assert g.blocked[i] in g.blocked;
    assert g.blocked[i].val.c in Ids(g.blocked);
  }

  lemma ScanSkip<C>(f: Fair<C>, g: Fair<C>, i: nat, flagged: set<C>)
    requires Scanned(f, g, i, flagged) && i < |g.blocked| && g.blocked[i].val.c in flagged
    ensures Scanned(f, g, i + 1, flagged)
  {
  }

  lemma ScanDone<C>(f: Fair<C>, g: Fair<C>, flagged: set<C>)
    requires Scanned(f, g, |g.blocked|, flagged)
    ensures Ids(g.blocked) == Ids(f.blocked) * flagged
    ensures Ids(g.runnable) == Ids(f.runnable) + (Ids(f.blocked) - flagged)
  {
  }

  method WakeAt<C>(g: Fair<C>, i: nat) returns (h: Fair<C>)
    requires Valid(g) && i < |g.blocked|
    ensures Woken(g, h, i)
  {
    var b := g.blocked[i];
    var run := Push(g.runnable, b.(key := NextPass(g) + b.key));
    h := Fair(run, Without(g.blocked, i));
  }

  // UnblockTowardsRoot on the two collections: wake every child that is no
  // longer flagged, in list order, each above the pass of the moment.
  method Unblock<C>(f: Fair<C>, flagged: set<C>) returns (g: Fair<C>, ghost trace: seq<Fair<C>>)
    requires Valid(f)
    ensures Valid(g)
    ensures Ids(g.runnable) == Ids(f.runnable) + (Ids(f.blocked) - flagged)
    ensures Ids(g.blocked) == Ids(f.blocked) * flagged
    ensures multiset(f.runnable) <= multiset(g.runnable) && multiset(g.blocked) <= multiset(f.blocked)
    ensures WakeTrace(trace, f, g)
  {
    g := f;
    trace := [f];
    var i := 0;
    while i < |g.blocked|
      invariant Scanned(f, g, i, flagged)
      invariant WakeTrace(trace, f, g)
      decreases |g.blocked| - i
    {
      var b := g.blocked[i];
      if b.val.c !in flagged {
        var h := WakeAt(g, i);
        ScanStep(f, g, h, i, flagged);
        ExtendWakeTrace(trace, f, g, h, i);
        g := h;
        trace := trace + [g];
      } else {
        ScanSkip(f, g, i, flagged);
        i := i + 1;
      }
    }
    ScanDone(f, g, flagged);
  }

  ghost predicate Stops<C>(f: Fair<C>, g: Fair<C>, flagged: set<C>) {
    if Ids(f.runnable) !! flagged then g == f
    else exists e :: e in f.runnable && e.val.c in flagged && Stopped(f, g, e)
  }

  ghost predicate AtMostOne<C>(s: set<C>) {
    forall c, d :: c in s && d in s ==> c == d
  }

  lemma SoleElement<C>(s: set<C>, flagged: set<C>, x: C)
    requires AtMostOne(s * flagged) && x in s && x in flagged
    ensures s * flagged == {x} && s - flagged == s - {x}
  {
    assert x in s * flagged;
  }

  // When at most one queued child is flagged, none is left behind.
  lemma StopsSole<C>(f: Fair<C>, g: Fair<C>, flagged: set<C>)
    requires Valid(f) && Stops(f, g, flagged) && AtMostOne(Ids(f.runnable) * flagged)
    ensures Ids(g.runnable) == Ids(f.runnable) - flagged
    ensures Ids(g.blocked) == Ids(f.blocked) + Ids(f.runnable) * flagged
  {
    if !(Ids(f.runnable) !! flagged) {
      var e :| Stopped(f, g, e) && e.val.c in flagged;
      StoppedKeeps(f, g, e);
      SoleElement(Ids(f.runnable), flagged, e.val.c);
    }
  }

  // BlockTowardsRoot on the two collections: the first flagged child found in
  // the queue is moved to the blocked list with its pass unchanged.
  method Block<C>(f: Fair<C>, flagged: set<C>) returns (g: Fair<C>)
    requires Valid(f)
    ensures Valid(g) && Stops(f, g, flagged)
    ensures AtMostOne(Ids(f.runnable) * flagged) ==>
              && Ids(g.runnable) == Ids(f.runnable) - flagged
              && Ids(g.blocked) == Ids(f.blocked) + Ids(f.runnable) * flagged
  {
    var run, pos := DeleteSingleElement(f.runnable, (x: Child<C>) => x.val.c in flagged);
    if pos < |f.runnable| {
      var e := f.runnable[pos];
      g := Fair(run, f.blocked + [e]);
      StoppedKeeps(f, g, e);
      assert e.val.c in Ids(f.runnable);
    } else {
      g := f;
    }
    if AtMostOne(Ids(f.runnable) * flagged) {
      StopsSole(f, g, flagged);
    }
  }

  // AddChild on the two collections.
  method Add<C>(f: Fair<C>, c: C, share: nat, isBlocked: bool) returns (g: Fair<C>)
    requires Valid(f) && share > 0 && c !in Ids(f.runnable) + Ids(f.blocked)
    ensures Valid(g)
    ensures var x := Entry(NextPass(f), Share(STRIDE1 / share, c));
            if isBlocked then AttachedBlocked(f, g, x) else Attached(f, g, x)
    ensures isBlocked ==> Ids(g.runnable) == Ids(f.runnable) && Ids(g.blocked) == Ids(f.blocked) + {c}
    ensures !isBlocked ==> Ids(g.runnable) == Ids(f.runnable) + {c} && Ids(g.blocked) == Ids(f.blocked)
  {
    var x := Entry(NextPass(f), Share(STRIDE1 / share, c));
    if isBlocked {
      g := f.(blocked := f.blocked + [x]);
      AttachedBlockedKeeps(f, g, x);
    } else {
      var run := Push(f.runnable, x);
      g := f.(runnable := run);
      AttachedKeeps(f, g, x);
    }
  }

  // RemoveChild on the two collections.
  method Remove<C(==)>(f: Fair<C>, c: C) returns (g: Fair<C>, wasRunnable: bool)
    requires Valid(f) && c in Ids(f.runnable) + Ids(f.blocked)
    ensures Valid(g)
    ensures wasRunnable <==> c in Ids(f.runnable)
    ensures Ids(g.runnable) == Ids(f.runnable) - {c} && Ids(g.blocked) == Ids(f.blocked) - {c}
    ensures wasRunnable ==> exists e :: Detached(f, g, e) && e.val.c == c
    ensures !wasRunnable ==> exists i: nat :: DetachedBlocked(f, g, i) && f.blocked[i].val.c == c
  {
    for i := 0 to |f.blocked|
      invariant forall j :: 0 <= j < i ==> f.blocked[j].val.c != c
    {
      if f.blocked[i].val.c == c {
        BlockedWithout(f, i);
        g := f.(blocked := Without(f.blocked, i));
        assert DetachedBlocked(f, g, i);
        return g, false;
      }
    }
    assert c !in Ids(f.blocked);
    var run, pos := DeleteSingleElement(f.runnable, (x: Child<C>) => x.val.c == c);
    var e := f.runnable[pos];
    g, wasRunnable := f.(runnable := run), true;
    DetachedKeeps(f, g, e);
  }
}
