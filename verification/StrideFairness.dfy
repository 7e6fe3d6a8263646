/** What stride scheduling guarantees over whole runs of a weighted-fair class:
    all runnable passes stay in a band, so children that stay runnable are served
    in proportion to their shares, and nobody runnable is starved. */
module StrideFairness {
  import opened ExtendedPriorityQueue
  import opened Stride

  // One operation on the class: the front child ran and stayed runnable or
  // blocked, a blocked child woke, a child was attached or removed, or
  // BlockTowardsRoot stopped a runnable child.
  datatype Event<C> =
    | Ran(consumed: nat)
    | Blocked(consumed: nat)
    | Woke(i: nat)
    | Joined(x: Child<C>)
    | Left(e: Child<C>)
    | JoinedBlocked(x: Child<C>)
    | LeftBlocked(i: nat)
    | Halted(e: Child<C>)

  ghost predicate Step<C>(f: Fair<C>, g: Fair<C>, ev: Event<C>) {
    match ev
    case Ran(consumed) => Charged(f, g, consumed)
    case Blocked(consumed) => Parked(f, g, consumed)
    case Woke(i) => Woken(f, g, i)
    case Joined(x) => Attached(f, g, x) && x.val.c !in Ids(f.runnable) + Ids(f.blocked)
    case Left(e) => Detached(f, g, e)
    case JoinedBlocked(x) => AttachedBlocked(f, g, x) && x.val.c !in Ids(f.runnable) + Ids(f.blocked)
    case LeftBlocked(i) => DetachedBlocked(f, g, i)
    case Halted(e) => Stopped(f, g, e)
  }

  // The event charges at most U of the resource, and charges of U fit in d. An
  // event that stores a pass where a penalty belongs is modest when the pass
  // fits too; WokenExact says that it must.
  ghost predicate Modest<C>(f: Fair<C>, ev: Event<C>, U: nat, d: nat) {
    match ev
    case Ran(consumed) => consumed <= U && f.runnable != [] && PassDelta(f.runnable[0].val.stride, U) <= d
    case Blocked(consumed) => consumed <= U && f.runnable != [] && PassDelta(f.runnable[0].val.stride, U) <= d
    case JoinedBlocked(x) => 0 <= x.key <= d
    case Halted(e) => 0 <= e.key <= d
    case _ => true
  }

  // Every runnable pass is within d of the smallest; every penalty is at most d.
  ghost predicate Band<C>(f: Fair<C>, d: nat) {
    && (forall x :: x in f.runnable ==> x.key <= NextPass(f) + d)
    && (forall x :: x in f.blocked ==> 0 <= x.key <= d)
  }

  lemma PassDeltaMonotone(stride: nat, a: nat, b: nat)
    requires a <= b
    ensures PassDelta(stride, a) <= PassDelta(stride, b)
  {
    assert stride * a <= stride * b;
  }

  lemma AboveNext<C>(f: Fair<C>, x: Child<C>)
    requires IsHeap(f.runnable) && x in multiset(f.runnable)
    ensures x in f.runnable && NextPass(f) <= x.key
  {
    TopIsMinimumOf(f.runnable, x);
  }

  // A queue made of old entries and one within the band above the old minimum
  // is again a band.
  lemma BandGrows<C>(f: Fair<C>, g: Fair<C>, y: Child<C>, d: nat)
    requires IsHeap(f.runnable) && IsHeap(g.runnable) && Band(f, d)
    requires multiset(g.runnable) <= multiset(f.runnable) + multiset{y}
    requires NextPass(f) <= y.key <= NextPass(f) + d
    ensures forall x :: x in g.runnable ==> x.key <= NextPass(g) + d
  {
    var low := NextPass(f);
    forall x | x in g.runnable ensures low <= x.key <= low + d {
      assert x in multiset(g.runnable);
      if x != y { AboveNext(f, x); }
    }
  }

  lemma BandWoken<C>(f: Fair<C>, g: Fair<C>, i: nat, d: nat)
    requires IsHeap(f.runnable) && Band(f, d) && Woken(f, g, i)
    ensures Band(g, d)
  {
    assert f.blocked[i] in f.blocked;
    BandGrows(f, g, f.blocked[i].(key := NextPass(f) + f.blocked[i].key), d);
    forall x | x in g.blocked ensures x in f.blocked {}
  }

  lemma BandMember<C>(f: Fair<C>, g: Fair<C>, y: Child<C>, d: nat)
    requires IsHeap(f.runnable) && IsHeap(g.runnable) && Band(f, d) && g.blocked == f.blocked
    requires multiset(g.runnable) <= multiset(f.runnable) + multiset{y} && y.key == NextPass(f)
    ensures Band(g, d)
  {
    BandGrows(f, g, y, d);
  }

  lemma BandCharged<C>(f: Fair<C>, g: Fair<C>, consumed: nat, U: nat, d: nat)
    requires IsHeap(f.runnable) && Band(f, d) && (Charged(f, g, consumed) || Parked(f, g, consumed))
    requires consumed <= U && PassDelta(f.runnable[0].val.stride, U) <= d
    ensures Band(g, d)
  {
    PassDeltaMonotone(f.runnable[0].val.stride, consumed, U);
    BandGrows(f, g, Charge(f.runnable[0], consumed), d);
  }

  // Every modest operation keeps the band.
  lemma BandStep<C>(f: Fair<C>, g: Fair<C>, ev: Event<C>, U: nat, d: nat)
    requires IsHeap(f.runnable) && Band(f, d) && Step(f, g, ev) && Modest(f, ev, U, d)
    ensures Band(g, d)
  {
    hide IsHeap, Band;
    match ev {
      case Ran(consumed) => BandCharged(f, g, consumed, U, d);
      case Blocked(consumed) => BandCharged(f, g, consumed, U, d);
      case Woke(i) => BandWoken(f, g, i, d);
      case Joined(x) => BandMember(f, g, x, d);
      case Left(e) => BandMember(f, g, f.runnable[0], d);
      case JoinedBlocked(x) => BandListed(f, g, x, d);
      case LeftBlocked(i) => BandUnlisted(f, g, i, d);
      case Halted(e) => BandHalted(f, g, e, d);
    }
  }

  lemma BandListed<C>(f: Fair<C>, g: Fair<C>, x: Child<C>, d: nat)
    requires Band(f, d) && AttachedBlocked(f, g, x) && 0 <= x.key <= d
    ensures Band(g, d)
  {
  }

  lemma BandUnlisted<C>(f: Fair<C>, g: Fair<C>, i: nat, d: nat)
    requires Band(f, d) && DetachedBlocked(f, g, i)
    ensures Band(g, d)
  {
    forall x | x in g.blocked ensures x in f.blocked {}
  }

  lemma BandHalted<C>(f: Fair<C>, g: Fair<C>, e: Child<C>, d: nat)
    requires IsHeap(f.runnable) && Band(f, d) && Stopped(f, g, e) && 0 <= e.key <= d
    ensures Band(g, d)
  {
    BandGrows(f, g, f.runnable[0], d);
  }

  // ---- runs ----------------------------------------------------------------

  datatype Run<C> = Run(states: seq<Fair<C>>, evs: seq<Event<C>>)

  ghost predicate StepAt<C>(r: Run<C>, i: nat)
    requires |r.states| == |r.evs| + 1 && i < |r.evs|
  {
    Step(r.states[i], r.states[i + 1], r.evs[i])
  }

  ghost predicate IsRun<C>(r: Run<C>) {
    && |r.states| == |r.evs| + 1 && Valid(r.states[0])
    && (forall i :: 0 <= i < |r.evs| ==> StepAt(r, i))
  }

  ghost predicate ModestRun<C>(r: Run<C>, U: nat, d: nat)
    requires |r.states| == |r.evs| + 1
  {
    forall i :: 0 <= i < |r.evs| ==> Modest(r.states[i], r.evs[i], U, d)
  }

  lemma StepKeepsValid<C>(f: Fair<C>, g: Fair<C>, ev: Event<C>)
    requires Valid(f) && Step(f, g, ev)
    ensures Valid(g)
  {
    match ev {
      case Ran(consumed) => ChargedKeeps(f, g, consumed);
      case Blocked(consumed) => ParkedKeeps(f, g, consumed);
      case Woke(i) => WokenKeeps(f, g, i);
      case Joined(x) => AttachedKeeps(f, g, x);
      case Left(e) => DetachedKeeps(f, g, e);
      case JoinedBlocked(x) => AttachedBlockedKeeps(f, g, x);
      case LeftBlocked(i) => BlockedWithout(f, i);
      case Halted(e) => StoppedKeeps(f, g, e);
    }
  }

  lemma {:induction false} ValidAlong<C>(r: Run<C>, n: nat)
    requires IsRun(r) && n < |r.states|
    ensures Valid(r.states[n])
  {
    if n > 0 {
      ValidAlong(r, n - 1);
      assert StepAt(r, n - 1);
      StepKeepsValid(r.states[n - 1], r.states[n], r.evs[n - 1]);
    }
  }

  // The band holds in every state of every run that starts in it.
  lemma {:induction false} BandAlong<C>(r: Run<C>, U: nat, d: nat, n: nat)
    requires IsRun(r) && ModestRun(r, U, d) && Band(r.states[0], d) && n < |r.states|
    ensures Band(r.states[n], d)
  {
    if n > 0 {
      BandAlong(r, U, d, n - 1);
      ValidAlong(r, n - 1);
      assert StepAt(r, n - 1) && Modest(r.states[n - 1], r.evs[n - 1], U, d);
      BandStep(r.states[n - 1], r.states[n], r.evs[n - 1], U, d);
    }
  }

  // ---- proportional service ------------------------------------------------

  // x is the queue entry of child c.
  ghost predicate Queues<C>(f: Fair<C>, c: C, x: Child<C>) {
    x in f.runnable && x.val.c == c
  }

  // c is the child that ran and was charged at step i.
  ghost predicate ChargedAt<C>(r: Run<C>, i: nat, c: C)
    requires |r.states| == |r.evs| + 1 && i < |r.evs|
  {
    r.evs[i].Ran? && r.states[i].runnable != [] && r.states[i].runnable[0].val.c == c
  }

  // Resource used by c in the first n steps, each use weighted by its stride.
  ghost function Service<C>(r: Run<C>, c: C, n: nat): nat
    requires |r.states| == |r.evs| + 1 && n <= |r.evs|
  {
    if n == 0 then 0
    else Service(r, c, n - 1)
         + if ChargedAt(r, n - 1, c)
           then PassDelta(r.states[n - 1].runnable[0].val.stride, r.evs[n - 1].consumed) else 0
  }

  lemma SameClassSameEntry<C>(f: Fair<C>, x: Child<C>, y: Child<C>)
    requires Valid(f) && x in f.runnable && y in f.runnable && x.val.c == y.val.c
    ensures x == y
  {
    assert x in multiset(f.runnable) && y in multiset(f.runnable);
    assert x in Bag(f) && y in Bag(f);
  }

  // While c stays runnable, one step moves its pass by what it is charged.
  lemma PassStep<C>(f: Fair<C>, g: Fair<C>, ev: Event<C>, c: C, x: Child<C>, y: Child<C>)
    requires Valid(f) && Step(f, g, ev) && Queues(f, c, x) && Queues(g, c, y)
    ensures y.key == x.key + if ev.Ran? && f.runnable[0].val.c == c
                             then PassDelta(f.runnable[0].val.stride, ev.consumed) else 0
    ensures y.val == x.val
  {
    StepKeepsValid(f, g, ev);
    assert x in multiset(f.runnable);
    match ev {
      case Ran(consumed) =>
        var t := f.runnable[0];
        if t.val.c == c {
          SameClassSameEntry(f, x, t);
          assert Charge(t, consumed) in multiset(g.runnable);
          SameClassSameEntry(g, y, Charge(t, consumed));
        } else {
          assert x in multiset(g.runnable);
          SameClassSameEntry(g, y, x);
        }
      case Blocked(consumed) =>
        var t := f.runnable[0];
        ParkedKeeps(f, g, consumed);
        assert c in Ids(g.runnable) && t.val.c != c;
        assert x in multiset(g.runnable);
        SameClassSameEntry(g, y, x);
      case Woke(i) =>
        assert x in multiset(g.runnable);
        SameClassSameEntry(g, y, x);
      case Joined(z) =>
        assert x in multiset(g.runnable);
        SameClassSameEntry(g, y, x);
      case Left(e) =>
        DetachedKeeps(f, g, e);
        assert c in Ids(g.runnable) && e.val.c != c;
        assert x in multiset(g.runnable);
        SameClassSameEntry(g, y, x);
      case JoinedBlocked(_) => SameClassSameEntry(g, y, x);
      case LeftBlocked(_) => SameClassSameEntry(g, y, x);
      case Halted(e) =>
        StoppedKeeps(f, g, e);
        assert c in Ids(g.runnable) && e.val.c != c;
        assert x in multiset(g.runnable);
        SameClassSameEntry(g, y, x);
    }
  }

  // c is runnable in every state of the run.
  ghost predicate StaysRunnable<C>(r: Run<C>, c: C) {
    forall i :: 0 <= i < |r.states| ==> c in Ids(r.states[i].runnable)
  }

  lemma {:induction false} PassIsService<C>(r: Run<C>, c: C, n: nat, x: Child<C>, y: Child<C>)
    requires IsRun(r) && StaysRunnable(r, c) && n < |r.states|
    requires Queues(r.states[0], c, x) && Queues(r.states[n], c, y)
    ensures y.key == x.key + Service(r, c, n)
  {
    if n == 0 {
      SameClassSameEntry(r.states[0], x, y);
    } else {
      assert c in Ids(r.states[n - 1].runnable);
      var z :| z in r.states[n - 1].runnable && z.val.c == c;
      PassIsService(r, c, n - 1, x, z);
      ValidAlong(r, n - 1);
      assert StepAt(r, n - 1);
      PassStep(r.states[n - 1], r.states[n], r.evs[n - 1], c, z, y);
    }
  }

  lemma BandGap<C>(f: Fair<C>, d: nat, x: Child<C>, y: Child<C>)
    requires Valid(f) && Band(f, d) && x in f.runnable && y in f.runnable
    ensures x.key - y.key <= d
  {
    TopIsMinimumOf(f.runnable, y);
  }

  // Over any run in which two children stay runnable, the stride-weighted
  // service they received differs by at most twice the band.
  lemma ProportionalService<C>(r: Run<C>, U: nat, d: nat, a: C, b: C)
    requires IsRun(r) && ModestRun(r, U, d) && Band(r.states[0], d)
    requires StaysRunnable(r, a) && StaysRunnable(r, b)
    ensures -2 * d <= Service(r, a, |r.evs|) - Service(r, b, |r.evs|) <= 2 * d
  {
    var n := |r.evs|;
    assert a in Ids(r.states[0].runnable) && a in Ids(r.states[n].runnable);
    assert b in Ids(r.states[0].runnable) && b in Ids(r.states[n].runnable);
    var xa :| xa in r.states[0].runnable && xa.val.c == a;
    var ya :| ya in r.states[n].runnable && ya.val.c == a;
    var xb :| xb in r.states[0].runnable && xb.val.c == b;
    var yb :| yb in r.states[n].runnable && yb.val.c == b;
    PassIsService(r, a, n, xa, ya);
    PassIsService(r, b, n, xb, yb);
    BandAlong(r, U, d, n);
    ValidAlong(r, n);
    BandGap(r.states[0], d, xa, xb);
    BandGap(r.states[0], d, xb, xa);
    BandGap(r.states[n], d, ya, yb);
    BandGap(r.states[n], d, yb, ya);
  }

  // ---- the same in units of the resource -----------------------------------

  // Resource used by c in the first n steps, and how often it was charged.
  ghost function Used<C>(r: Run<C>, c: C, n: nat): nat
    requires |r.states| == |r.evs| + 1 && n <= |r.evs|
  {
    if n == 0 then 0 else Used(r, c, n - 1) + if ChargedAt(r, n - 1, c) then r.evs[n - 1].consumed else 0
  }

  ghost function Charges<C>(r: Run<C>, c: C, n: nat): nat
    requires |r.states| == |r.evs| + 1 && n <= |r.evs|
  {
    if n == 0 then 0 else Charges(r, c, n - 1) + if ChargedAt(r, n - 1, c) then 1 else 0
  }

  lemma RoundingLoss(stride: nat, consumed: nat)
    ensures QUANTUM * PassDelta(stride, consumed) <= stride * consumed
            <= QUANTUM * PassDelta(stride, consumed) + (QUANTUM - 1)
  {
  }

  lemma {:induction false} ServiceInUnits<C>(r: Run<C>, c: C, x: Child<C>, n: nat)
    requires IsRun(r) && StaysRunnable(r, c) && n < |r.states| && Queues(r.states[0], c, x)
    ensures QUANTUM * Service(r, c, n) <= x.val.stride * Used(r, c, n)
            <= QUANTUM * Service(r, c, n) + (QUANTUM - 1) * Charges(r, c, n)
  {
    if n > 0 {
      ServiceInUnits(r, c, x, n - 1);
      if ChargedAt(r, n - 1, c) {
        var t := r.states[n - 1].runnable[0];
        StrideIsFixed(r, c, x, n - 1, t);
        RoundingLoss(t.val.stride, r.evs[n - 1].consumed);
        Distribute(x.val.stride, Used(r, c, n - 1), r.evs[n - 1].consumed);
      }
    }
  }

  lemma Distribute(k: nat, a: nat, b: nat)
    ensures k * (a + b) == k * a + k * b
  {
  }

  lemma {:induction false} StrideIsFixed<C>(r: Run<C>, c: C, x: Child<C>, n: nat, y: Child<C>)
    requires IsRun(r) && StaysRunnable(r, c) && n < |r.states|
    requires Queues(r.states[0], c, x) && Queues(r.states[n], c, y)
    ensures y.val == x.val
  {
    if n == 0 {
      SameClassSameEntry(r.states[0], x, y);
    } else {
      assert c in Ids(r.states[n - 1].runnable);
      var z :| z in r.states[n - 1].runnable && z.val.c == c;
      StrideIsFixed(r, c, x, n - 1, z);
      ValidAlong(r, n - 1);
      assert StepAt(r, n - 1);
      PassStep(r.states[n - 1], r.states[n], r.evs[n - 1], c, z, y);
    }
  }

  // Usage times stride, the amount that should be equal for all children, stays
  // equal up to the band and the rounding of each charge.
  lemma ProportionalUse<C>(r: Run<C>, U: nat, d: nat, a: C, b: C, xa: Child<C>, xb: Child<C>)
    requires IsRun(r) && ModestRun(r, U, d) && Band(r.states[0], d)
    requires StaysRunnable(r, a) && StaysRunnable(r, b) && Queues(r.states[0], a, xa) && Queues(r.states[0], b, xb)
    ensures var n := |r.evs|;
      xa.val.stride * Used(r, a, n) - xb.val.stride * Used(r, b, n)
      <= QUANTUM * (2 * d) + (QUANTUM - 1) * Charges(r, a, n)
  {
    var n := |r.evs|;
    ProportionalService(r, U, d, a, b);
    ServiceInUnits(r, a, xa, n);
    ServiceInUnits(r, b, xb, n);
  }

  // ---- no starvation -------------------------------------------------------

  // x was picked at step i, whether it blocked afterwards or not.
  ghost predicate PickedAt<C>(r: Run<C>, i: nat, x: C)
    requires |r.states| == |r.evs| + 1 && i < |r.evs|
  {
    (r.evs[i].Ran? || r.evs[i].Blocked?) && r.states[i].runnable != [] && r.states[i].runnable[0].val.c == x
  }

  // Children block and wake; each round counts one and moves the pass.
  ghost predicate CountingEvent<C>(f: Fair<C>, ev: Event<C>) {
    match ev
    case Ran(consumed) => consumed == 1 && f.runnable != [] && PassDelta(f.runnable[0].val.stride, 1) >= 1
    case Blocked(consumed) => consumed == 1 && f.runnable != [] && PassDelta(f.runnable[0].val.stride, 1) >= 1
    case Woke(_) => true
    case _ => false
  }

  ghost predicate CountingRun<C>(r: Run<C>)
    requires |r.states| == |r.evs| + 1
  {
    forall i :: 0 <= i < |r.evs| ==> CountingEvent(r.states[i], r.evs[i])
  }

  // A lower bound on the pass at which x will next be picked.
  ghost predicate FloorOf<C>(f: Fair<C>, x: C, floor: int) {
    || (exists e :: e in f.runnable && e.val.c == x && e.key >= floor)
    || (exists e :: e in f.blocked && e.val.c == x && NextPass(f) + e.key >= floor)
  }

  // Times x is picked from step i on.
  ghost function PicksFrom<C>(r: Run<C>, x: C, i: nat): nat
    requires |r.states| == |r.evs| + 1 && i <= |r.evs|
    decreases |r.evs| - i
  {
    if i == |r.evs| then 0 else (if PickedAt(r, i, x) then 1 else 0) + PicksFrom(r, x, i + 1)
  }

  lemma NextPassRises<C>(f: Fair<C>, g: Fair<C>, ev: Event<C>)
    requires IsHeap(f.runnable) && Step(f, g, ev) && CountingEvent(f, ev) && f.runnable != [] && g.runnable != []
    requires forall x :: x in f.blocked ==> x.key >= 0
    ensures NextPass(f) <= NextPass(g)
    ensures forall x :: x in g.blocked ==> x.key >= 0
  {
    assert g.runnable[0] in multiset(g.runnable);
    if g.runnable[0] in multiset(f.runnable) { AboveNext(f, g.runnable[0]); }
    match ev {
      case Ran(_) =>
      case Blocked(_) =>
      case Woke(i) =>
        assert f.blocked[i] in f.blocked;
        forall x | x in g.blocked ensures x in f.blocked {}
    }
  }

  lemma EntryIsParked<C>(f: Fair<C>, e: Child<C>, t: Child<C>)
    requires Valid(f) && e in f.blocked && t in f.runnable
    ensures e.val.c != t.val.c
  {
    RunnableBlockedDisjoint(f);
  }

  // One step raises the floor of the child it picks and lowers nobody's.
  lemma FloorStep<C>(f: Fair<C>, g: Fair<C>, ev: Event<C>, x: C, floor: int)
    requires Valid(f) && Step(f, g, ev) && CountingEvent(f, ev) && f.runnable != [] && g.runnable != []
    requires forall y :: y in f.blocked ==> y.key >= 0
    requires FloorOf(f, x, floor)
    ensures var picked := (ev.Ran? || ev.Blocked?) && f.runnable[0].val.c == x;
            && FloorOf(g, x, if picked then floor + 1 else floor)
            && (picked ==> floor <= NextPass(f))
  {
    NextPassRises(f, g, ev);
    var t := f.runnable[0];
    if e :| e in f.runnable && e.val.c == x && e.key >= floor {
      FloorStepRunnable(f, g, ev, e, floor);
    } else {
      var e :| e in f.blocked && e.val.c == x && NextPass(f) + e.key >= floor;
      EntryIsParked(f, e, t);
      FloorStepBlocked(f, g, ev, e, floor);
    }
  }

  lemma FloorStepRunnable<C>(f: Fair<C>, g: Fair<C>, ev: Event<C>, e: Child<C>, floor: int)
    requires Valid(f) && Step(f, g, ev) && CountingEvent(f, ev) && f.runnable != [] && NextPass(f) <= NextPass(g)
    requires e in f.runnable && e.key >= floor
    ensures var picked := (ev.Ran? || ev.Blocked?) && f.runnable[0].val.c == e.val.c;
            && FloorOf(g, e.val.c, if picked then floor + 1 else floor)
            && (picked ==> floor <= NextPass(f))
  {
    var t := f.runnable[0];
    assert e in multiset(f.runnable);
    if t.val.c == e.val.c {
      SameClassSameEntry(f, e, t);
    }
    match ev {
      case Ran(_) =>
        if t == e {
          assert Charge(t, 1) in multiset(g.runnable) && Charge(t, 1) in g.runnable;
        } else {
          assert e in multiset(g.runnable) && e in g.runnable;
        }
      case Blocked(_) =>
        if t == e {
          assert Penalise(t, 1) in g.blocked;
        } else {
          assert e in multiset(g.runnable) && e in g.runnable;
        }
      case Woke(_) =>
        assert e in multiset(g.runnable) && e in g.runnable;
    }
  }

  lemma FloorStepBlocked<C>(f: Fair<C>, g: Fair<C>, ev: Event<C>, e: Child<C>, floor: int)
    requires Step(f, g, ev) && CountingEvent(f, ev) && NextPass(f) <= NextPass(g)
    requires e in f.blocked && NextPass(f) + e.key >= floor
    ensures FloorOf(g, e.val.c, floor)
  {
    match ev {
      case Ran(_) => assert e in g.blocked;
      case Blocked(_) => assert e in g.blocked;
      case Woke(i) =>
        if f.blocked[i] == e {
          var w := e.(key := NextPass(f) + e.key);
          assert w in multiset(g.runnable) && w in g.runnable;
        } else {
          assert e in g.blocked;
        }
    }
  }

  // c is runnable in every state from i on, always in the same entry.
  ghost predicate Waits<C>(r: Run<C>, y: Child<C>, i: nat) {
    forall j :: i <= j < |r.states| ==> y in r.states[j].runnable
  }

  lemma {:induction false} PicksBounded<C>(r: Run<C>, y: Child<C>, x: C, i: nat, floor: int)
    requires IsRun(r) && CountingRun(r) && i < |r.states| && Waits(r, y, i)
    requires FloorOf(r.states[i], x, floor) && forall e :: e in r.states[i].blocked ==> e.key >= 0
    ensures PicksFrom(r, x, i) <= if floor <= y.key then y.key - floor + 1 else 0
    decreases |r.evs| - i
  {
    if i < |r.evs| {
      var f, g, ev := r.states[i], r.states[i + 1], r.evs[i];
      ValidAlong(r, i);
      assert StepAt(r, i) && CountingEvent(f, ev);
      assert y in f.runnable && y in g.runnable;
      TopIsMinimumOf(f.runnable, y);
      NextPassRises(f, g, ev);
      FloorStep(f, g, ev, x, floor);
      PicksBounded(r, y, x, i + 1, if PickedAt(r, i, x) then floor + 1 else floor);
    }
  }

  // While a runnable child waits in the queue unpicked, no sibling is picked
  // more than d + 1 times, however often siblings block and wake.
  lemma SiblingPicksBounded<C>(r: Run<C>, y: Child<C>, x: C, d: nat)
    requires IsRun(r) && CountingRun(r) && Waits(r, y, 0) && Band(r.states[0], d)
    requires x in Ids(r.states[0].runnable) + Ids(r.states[0].blocked)
    ensures PicksFrom(r, x, 0) <= d + 1
  {
    var f := r.states[0];
    assert FloorOf(f, x, NextPass(f)) by {
      if x in Ids(f.runnable) {
        var e :| e in f.runnable && e.val.c == x;
        TopIsMinimumOf(f.runnable, e);
      } else {
        var e :| e in f.blocked && e.val.c == x;
      }
    }
    assert y in f.runnable;
    PicksBounded(r, y, x, 0, NextPass(f));
  }

  // c is never the child picked.
  ghost predicate NeverPicked<C>(r: Run<C>, c: C)
    requires |r.states| == |r.evs| + 1
  {
    forall i :: 0 <= i < |r.evs| ==> !PickedAt(r, i, c)
  }

  lemma {:induction false} UnpickedWaits<C>(r: Run<C>, c: C, y: Child<C>, n: nat)
    requires IsRun(r) && StaysRunnable(r, c) && NeverPicked(r, c) && Queues(r.states[0], c, y) && n < |r.states|
    ensures y in r.states[n].runnable
  {
    if n > 0 {
      UnpickedWaits(r, c, y, n - 1);
      ValidAlong(r, n - 1);
      assert StepAt(r, n - 1) && !PickedAt(r, n - 1, c);
      assert c in Ids(r.states[n].runnable);
      var z :| z in r.states[n].runnable && z.val.c == c;
      PassStep(r.states[n - 1], r.states[n], r.evs[n - 1], c, y, z);
      assert z == y;
    }
  }

  // Scheduling rounds from step i on.
  ghost function RoundsFrom<C>(r: Run<C>, i: nat): nat
    requires |r.states| == |r.evs| + 1 && i <= |r.evs|
    decreases |r.evs| - i
  {
    if i == |r.evs| then 0 else (if r.evs[i].Ran? || r.evs[i].Blocked? then 1 else 0) + RoundsFrom(r, i + 1)
  }

  ghost function AllPicksFrom<C>(r: Run<C>, ks: seq<C>, i: nat): nat
    requires |r.states| == |r.evs| + 1 && i <= |r.evs|
  {
    if ks == [] then 0 else PicksFrom(r, ks[0], i) + AllPicksFrom(r, ks[1..], i)
  }

  lemma {:induction false} AllPicksStep<C>(r: Run<C>, ks: seq<C>, i: nat)
    requires |r.states| == |r.evs| + 1 && i < |r.evs|
    ensures AllPicksFrom(r, ks, i) >= AllPicksFrom(r, ks, i + 1)
    ensures (exists j :: 0 <= j < |ks| && PickedAt(r, i, ks[j])) ==> AllPicksFrom(r, ks, i) >= AllPicksFrom(r, ks, i + 1) + 1
  {
    if ks != [] {
      AllPicksStep(r, ks[1..], i);
      if j :| 0 <= j < |ks| && PickedAt(r, i, ks[j]) {
        if j > 0 { assert ks[1..][j - 1] == ks[j]; }
      }
    }
  }

  // Every child other than c is listed in ks.
  ghost predicate Siblings<C>(r: Run<C>, c: C, ks: seq<C>) {
    forall i :: 0 <= i < |r.states| ==> Ids(r.states[i].runnable) <= {c} + set k | k in ks
  }

  lemma {:induction false} RoundsArePicks<C>(r: Run<C>, c: C, ks: seq<C>, i: nat)
    requires IsRun(r) && CountingRun(r) && NeverPicked(r, c) && Siblings(r, c, ks) && i <= |r.evs|
    ensures RoundsFrom(r, i) <= AllPicksFrom(r, ks, i)
    decreases |r.evs| - i
  {
    if i < |r.evs| {
      RoundsArePicks(r, c, ks, i + 1);
      AllPicksStep(r, ks, i);
      assert CountingEvent(r.states[i], r.evs[i]);
      if r.evs[i].Ran? || r.evs[i].Blocked? {
        var t := r.states[i].runnable[0];
        assert t.val.c in Ids(r.states[i].runnable);
        assert PickedAt(r, i, t.val.c) && !PickedAt(r, i, c);
        var j :| 0 <= j < |ks| && ks[j] == t.val.c;
      }
    }
  }

  lemma OneMore(n: nat, k: nat)
    ensures (n + 1) * k == n * k + k
  {
  }

  lemma {:induction false} AllPicksBounded<C>(r: Run<C>, y: Child<C>, ks: seq<C>, d: nat)
    requires IsRun(r) && CountingRun(r) && Waits(r, y, 0) && Band(r.states[0], d)
    requires forall j :: 0 <= j < |ks| ==> ks[j] in Ids(r.states[0].runnable) + Ids(r.states[0].blocked)
    ensures AllPicksFrom(r, ks, 0) <= |ks| * (d + 1)
    decreases |ks|
  {
    hide IsRun, CountingRun, Waits, Band, Ids, PicksFrom;
    if ks != [] {
      SiblingPicksBounded(r, y, ks[0], d);
      AllPicksBounded(r, y, ks[1..], d);
      OneMore(|ks| - 1, d + 1);
    }
  }

  // No starvation: a child that stays runnable among the siblings ks is picked
  // within |ks| * (d + 1) rounds, whatever the siblings do.
  lemma NoStarvation<C>(r: Run<C>, c: C, ks: seq<C>, d: nat)
    requires IsRun(r) && CountingRun(r) && Band(r.states[0], d) && StaysRunnable(r, c)
    requires Siblings(r, c, ks)
    requires forall j :: 0 <= j < |ks| ==> ks[j] in Ids(r.states[0].runnable) + Ids(r.states[0].blocked)
    requires RoundsFrom(r, 0) > |ks| * (d + 1)
    ensures exists i :: 0 <= i < |r.evs| && PickedAt(r, i, c)
  {
    if NeverPicked(r, c) {
      assert c in Ids(r.states[0].runnable);
      var y :| y in r.states[0].runnable && y.val.c == c;
      forall j | 0 <= j < |r.states| ensures y in r.states[j].runnable {
        UnpickedWaits(r, c, y, j);
      }
      AllPicksBounded(r, y, ks, d);
      RoundsArePicks(r, c, ks, 0);
      assert false;
    }
  }

  // ---- no starvation on the count resource ----------------------------------

  // With shares from 1 to 1024 a counted round moves the pass by 1 to 1024.
  lemma CountedRound(share: nat)
    requires 1 <= share <= 1024
    ensures 1 <= PassDelta(STRIDE1 / share, 1) <= 1024
  {
    assert STRIDE1 / share >= 1024 && STRIDE1 / share <= STRIDE1;
  }

  // The stride comes from a share between 1 and 1024.
  ghost predicate Shared(stride: nat) {
    exists share: nat :: 1 <= share <= 1024 && stride == STRIDE1 / share
  }

  ghost predicate AllShared<C>(f: Fair<C>) {
    && (forall x :: x in f.runnable ==> Shared(x.val.stride))
    && (forall x :: x in f.blocked ==> Shared(x.val.stride))
  }

  // A round counts one; children block and wake.
  ghost predicate Counts<C>(ev: Event<C>) {
    match ev
    case Ran(consumed) => consumed == 1
    case Blocked(consumed) => consumed == 1
    case Woke(_) => true
    case _ => false
  }

  // No entry changes its stride, however it moves between the two collections.
  lemma SharesStep<C>(f: Fair<C>, g: Fair<C>, ev: Event<C>)
    requires Step(f, g, ev) && Counts(ev) && AllShared(f)
    ensures AllShared(g) && CountingEvent(f, ev) && Modest(f, ev, 1, 1024)
  {
    hide Shared;
    forall x | x in g.runnable ensures Shared(x.val.stride) {
      assert x in multiset(g.runnable);
      assert x in multiset(f.runnable) ==> x in f.runnable;
      assert ev.Woke? ==> f.blocked[ev.i] in f.blocked;
      assert f.runnable != [] ==> f.runnable[0] in f.runnable;
    }
    forall x | x in g.blocked ensures Shared(x.val.stride) {
      assert f.runnable != [] ==> f.runnable[0] in f.runnable;
    }
    if !ev.Woke? {
      assert f.runnable[0] in f.runnable;
      SharedCounts(f.runnable[0].val.stride);
    }
  }

  lemma SharedCounts(stride: nat)
    requires Shared(stride)
    ensures 1 <= PassDelta(stride, 1) <= 1024
  {
    var share: nat :| 1 <= share <= 1024 && stride == STRIDE1 / share;
    CountedRound(share);
  }

  ghost predicate CountsAll<C>(r: Run<C>) {
    forall i :: 0 <= i < |r.evs| ==> Counts(r.evs[i])
  }

  lemma {:induction false} SharesAlong<C>(r: Run<C>, n: nat)
    requires IsRun(r) && CountsAll(r) && AllShared(r.states[0]) && n < |r.states|
    ensures AllShared(r.states[n])
  {
    if n > 0 {
      SharesAlong(r, n - 1);
      assert StepAt(r, n - 1) && Counts(r.evs[n - 1]);
      SharesStep(r.states[n - 1], r.states[n], r.evs[n - 1]);
    }
  }

  lemma SharesCount<C>(r: Run<C>)
    requires IsRun(r) && CountsAll(r) && AllShared(r.states[0])
    ensures CountingRun(r) && ModestRun(r, 1, 1024)
  {
    forall i | 0 <= i < |r.evs| ensures CountingEvent(r.states[i], r.evs[i]) && Modest(r.states[i], r.evs[i], 1, 1024) {
      SharesAlong(r, i);
      assert StepAt(r, i) && Counts(r.evs[i]);
      SharesStep(r.states[i], r.states[i + 1], r.evs[i]);
    }
  }

  // Counting rounds, with every share between 1 and 1024: the band of 1024 is
  // kept, and a child that stays runnable is picked within 1025 rounds per
  // sibling, whatever the siblings do.
  lemma NoStarvationByCount<C>(r: Run<C>, c: C, ks: seq<C>)
    requires IsRun(r) && CountsAll(r) && AllShared(r.states[0]) && Band(r.states[0], 1024) && StaysRunnable(r, c)
    requires Siblings(r, c, ks)
    requires forall j :: 0 <= j < |ks| ==> ks[j] in Ids(r.states[0].runnable) + Ids(r.states[0].blocked)
    ensures forall n :: 0 <= n < |r.states| ==> Band(r.states[n], 1024)
    ensures RoundsFrom(r, 0) > |ks| * 1025 ==> exists i :: 0 <= i < |r.evs| && PickedAt(r, i, c)
  {
    SharesCount(r);
    forall n | 0 <= n < |r.states| ensures Band(r.states[n], 1024) { BandAlong(r, 1, 1024, n); }
    if RoundsFrom(r, 0) > |ks| * 1025 { NoStarvation(r, c, ks, 1024); }
  }

  // ---- a pass read as a penalty --------------------------------------------

  // Every runnable pass is within d of the smallest.
  ghost predicate Together<C>(f: Fair<C>, d: nat) {
    forall x :: x in f.runnable ==> x.key <= NextPass(f) + d
  }

  lemma WokenEntry<C>(f: Fair<C>, g: Fair<C>, i: nat)
    requires Woken(f, g, i)
    ensures i < |f.blocked| && f.blocked[i].(key := NextPass(f) + f.blocked[i].key) in g.runnable
  {
    assert f.blocked[i].(key := NextPass(f) + f.blocked[i].key) in multiset(g.runnable);
  }

  // Waking a child keeps the runnable passes together exactly when nobody else
  // is runnable or its stored value, read as the penalty, is at most d.
  lemma WokenExact<C>(f: Fair<C>, g: Fair<C>, i: nat, d: nat)
    requires Valid(f) && Together(f, d) && Woken(f, g, i) && f.blocked[i].key >= 0
    ensures Together(g, d) <==> f.runnable == [] || f.blocked[i].key <= d
  {
    var w := f.blocked[i].(key := NextPass(f) + f.blocked[i].key);
    assert w in multiset(g.runnable) && w in g.runnable;
    forall x | x in g.runnable && x != w ensures x in f.runnable && NextPass(f) <= x.key {
      assert x in multiset(g.runnable);
      AboveNext(f, x);
    }
    if f.runnable != [] {
      assert f.runnable[0] in multiset(f.runnable);
      assert f.runnable[0] in multiset(g.runnable) && f.runnable[0] in g.runnable;
      TopIsMinimumOf(g.runnable, f.runnable[0]);
      assert g.runnable[0] in g.runnable;
      assert NextPass(g) == NextPass(f);
    }
  }

  lemma StoppedTogether<C>(f: Fair<C>, g: Fair<C>, e: Child<C>, d: nat)
    requires Valid(f) && Band(f, d) && Stopped(f, g, e)
    ensures Together(g, d)
  {
    BandGrows(f, g, f.runnable[0], d);
  }

  // A child stopped by BlockTowardsRoot keeps its pass, and waking reads it as
  // the penalty.
  lemma StoppedThenWoken<C>(f: Fair<C>, g: Fair<C>, h: Fair<C>, e: Child<C>, d: nat)
    requires Valid(f) && Band(f, d) && Stopped(f, g, e) && Woken(g, h, |f.blocked|) && e.key >= 0
    ensures e.(key := NextPass(g) + e.key) in h.runnable
    ensures Together(h, d) <==> g.runnable == [] || e.key <= d
  {
    hide Valid, Woken, Band, Together;
    WokenEntry(g, h, |f.blocked|);
    StoppedTogether(f, g, e, d);
    StoppedKeeps(f, g, e);
    WokenExact(g, h, |f.blocked|, d);
  }

  // A child attached while blocked stores the next pass, and waking reads it as
  // the penalty: it joins at twice the next pass.
  lemma AttachedThenWoken<C>(f: Fair<C>, g: Fair<C>, h: Fair<C>, x: Child<C>, d: nat)
    requires Valid(f) && Band(f, d) && AttachedBlocked(f, g, x) && x.val.c !in Ids(f.runnable) + Ids(f.blocked)
    requires Woken(g, h, |f.blocked|) && NextPass(f) >= 0
    ensures x.(key := 2 * NextPass(f)) in h.runnable
    ensures Together(h, d) <==> NextPass(f) <= d
  {
    hide Valid, Woken, Ids;
    assert g.blocked[|f.blocked|] == x && Together(g, d);
    WokenEntry(g, h, |f.blocked|);
    AttachedBlockedKeeps(f, g, x);
    WokenExact(g, h, |f.blocked|, d);
  }

  function Pass(c: int, pass: int): Child<int> {
    Entry(pass, Share(STRIDE1 / 1024, c))
  }

  const FIRST := Pass(0, 2000)
  const SECOND := Pass(1, 2000)
  const BACK := Pass(1, 4000)

  // One child of share 1024 at pass 2000, or two of them.
  lemma BothInBand(f: Fair<int>)
    requires f == Fair([FIRST], []) || f == Fair([FIRST, SECOND], [])
    ensures Valid(f) && Band(f, 1024) && AllShared(f)
  {
    assert STRIDE1 / 1024 == STRIDE1 / 1024 && Shared(STRIDE1 / 1024);
    assert Bag(f) == multiset(f.runnable);
    if f.runnable == [FIRST] {
      assert Bag(f) == multiset{FIRST};
    } else {
      assert Bag(f) == multiset{FIRST, SECOND};
    }
  }

  lemma HaltsSecond()
    ensures Stopped(Fair([FIRST, SECOND], []), Fair([FIRST], [SECOND]), SECOND)
    ensures AttachedBlocked(Fair([FIRST], []), Fair([FIRST], [SECOND]), SECOND)
  {
    assert multiset([FIRST, SECOND]) == multiset{FIRST, SECOND} && multiset([FIRST]) == multiset{FIRST};
  }

  lemma WakesSecond()
    ensures Woken(Fair([FIRST], [SECOND]), Fair([FIRST, BACK], []), 0) && !Together(Fair([FIRST, BACK], []), 1024)
  {
    var f, g := Fair([FIRST], [SECOND]), Fair([FIRST, BACK], []);
    assert multiset(g.runnable) == multiset{FIRST, BACK} && multiset(f.runnable) == multiset{FIRST};
    assert Without(f.blocked, 0) == [];
    assert BACK in g.runnable;
  }

  // The second child is stopped, or attached while blocked, and woken: it joins
  // at 4000, outside the band.
  lemma BandIsLeft()
    ensures var two, one, g, h := Fair([FIRST, SECOND], []), Fair([FIRST], []), Fair([FIRST], [SECOND]), Fair([FIRST, BACK], []);
      && Valid(two) && Band(two, 1024) && AllShared(two) && Stopped(two, g, SECOND)
      && Valid(one) && Band(one, 1024) && AllShared(one) && AttachedBlocked(one, g, SECOND)
      && Woken(g, h, 0) && !Together(h, 1024)
  {
    hide Valid, Band, AllShared, Stopped, AttachedBlocked, Woken, Together;
    BothInBand(Fair([FIRST, SECOND], []));
    BothInBand(Fair([FIRST], []));
    HaltsSecond();
    WakesSecond();
  }
}
