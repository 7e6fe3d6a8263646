/** From scheduler rounds to the theorem on stride scheduling: what the rounds do
    to a weighted-fair class of the tree is a run of the class, with one charge
    for every round it was on the path, so that the class keeps its band and
    starves nobody. */
module ScheduledFairness {
  import opened TrafficClasses
  import opened Schedulers
  import WF = Stride
  import SF = StrideFairness

  // What one round does to one class: it wakes along the trail, and if it lies
  // on the descended path it accounts for the child it picked.
  datatype ClassRound = ClassRound(trail: seq<Policy>, charged: bool, child: TrafficClass, childBlocked: bool, u: Usage,
                                   tsc: nat, after: Policy, wakeup: nat)

  ghost predicate Fits(p: Policy, r: ClassRound) {
    && r.trail != [] && Trail(r.trail, p, r.trail[|r.trail| - 1])
    && if r.charged then
         && Finished(r.trail[|r.trail| - 1], r.after, r.child, r.childBlocked, r.u, r.tsc, r.wakeup)
         && InFront(r.trail[|r.trail| - 1], r.child)
       else r.after == r.trail[|r.trail| - 1]
  }

  ghost predicate InFront(p: Policy, child: TrafficClass) {
    p.WeightedFair? ==> p.fair.runnable != [] && p.fair.runnable[0].val.c == child
  }

  // A round of the scheduler, seen from a class that is not the leaf it ran.
  lemma RoundOfClass(s: Scheduler, leaf: TrafficClass?, path: seq<TrafficClass>, k: Waking, was: map<TrafficClass, Policy>,
                     w: map<TrafficClass, nat>, u: Usage, tsc: nat, c: TrafficClass) returns (r: ClassRound)
    requires Awoken(k, was, w, s.S) && s.RoundOf(leaf, path, k, u, tsc) && c in s.S && c != leaf
    ensures c in was && Fits(was[c], r) && r.after == c.st && r.u == u
    ensures r.charged <==> leaf != null && c in path
    ensures r.charged ==> Picks(k.woken[c], c.kids, r.child) && r.wakeup == c.wakeupTime
  {
    hide Trail, Finished, Path, Limits, OwnWakes;
    TrailNonempty(k.trails[c], was[c], k.woken[c]);
    if leaf != null && c in path {
      var j :| 0 <= j < |path| && path[j] == c;
      r := ClassRound(k.trails[c], true, path[j + 1], path[j + 1].blocked, u, tsc, c.st, c.wakeupTime);
    } else {
      r := ClassRound(k.trails[c], false, c, c.blocked, u, tsc, c.st, c.wakeupTime);
    }
  }

  // ---- one round ----

  // Two runs, one after the other.
  lemma RunsJoin<C>(r: SF.Run<C>, q: SF.Run<C>) returns (j: SF.Run<C>)
    requires SF.IsRun(r) && SF.IsRun(q) && q.states[0] == r.states[|r.evs|]
    ensures SF.IsRun(j) && j.states == r.states + q.states[1..] && j.evs == r.evs + q.evs
    ensures j.states[0] == r.states[0] && j.states[|j.evs|] == q.states[|q.evs|]
    ensures forall i :: 0 <= i < |q.states| ==> j.states[|r.evs| + i] == q.states[i]
  {
    j := SF.Run(r.states + q.states[1..], r.evs + q.evs);
    forall i | 0 <= i < |j.evs| ensures SF.StepAt(j, i) {
      if i < |r.evs| {
        assert SF.StepAt(r, i);
      } else {
        assert SF.StepAt(q, i - |r.evs|);
        assert j.states[i] == q.states[i - |r.evs|];
        assert j.states[i + 1] == q.states[i + 1 - |r.evs|];
      }
    }
  }

  lemma SingleStep<C>(f: WF.Fair<C>, g: WF.Fair<C>, ev: SF.Event<C>) returns (r: SF.Run<C>)
    requires WF.Valid(f) && SF.Step(f, g, ev)
    ensures SF.IsRun(r) && r.states == [f, g] && r.evs == [ev]
  {
    r := SF.Run([f, g], [ev]);
    assert SF.StepAt(r, 0);
  }

  lemma TrailInit(tr: seq<Policy>, p: Policy, q: Policy)
    requires Trail(tr, p, q) && |tr| > 1
    ensures var m := tr[|tr| - 2]; Trail(tr[..|tr| - 1], p, m) && WokeSome(m, q)
  {
    hide WokeSome;
    var n := |tr| - 1;
    assert TrailStep(tr, n - 1);
    forall k | 0 <= k < n - 1 ensures TrailStep(tr[..n], k) {
      assert TrailStep(tr, k);
    }
  }

  lemma WokeIsStep(p: Policy, q: Policy) returns (r: SF.Run<TrafficClass>)
    requires WokeSome(p, q) && p.WeightedFair? && WF.Valid(p.fair)
    ensures q.WeightedFair? && q.shared == p.shared
    ensures SF.IsRun(r) && r.states == [p.fair, q.fair] && |r.evs| == 1 && r.evs[0].Woke?
  {
    hide WF.Woken, WF.Valid;
    var i: nat :| WF.Woken(p.fair, q.fair, i);
    r := SingleStep(p.fair, q.fair, SF.Woke(i));
  }

  // The states of the run are those of the trail.
  ghost predicate Follows(r: SF.Run<TrafficClass>, tr: seq<Policy>) {
    && |r.states| == |tr| == |r.evs| + 1 && (forall i :: 0 <= i < |tr| ==> tr[i].WeightedFair? && r.states[i] == tr[i].fair)
    && forall i :: 0 <= i < |r.evs| ==> r.evs[i].Woke?
  }

  // Waking, child by child.
  lemma {:induction false} TrailIsRun(tr: seq<Policy>, p: Policy, q: Policy) returns (r: SF.Run<TrafficClass>)
    requires Trail(tr, p, q) && p.WeightedFair? && WF.Valid(p.fair)
    ensures q.WeightedFair? && q.shared == p.shared && SF.IsRun(r) && Follows(r, tr)
    decreases |tr|
  {
    hide WF.Valid, SF.StepAt, WokeSome, TrailStep;
    if |tr| == 1 {
      r := SF.Run([p.fair], []);
    } else {
      var m := tr[|tr| - 2];
      TrailInit(tr, p, q);
      r := TrailIsRun(tr[..|tr| - 1], p, m);
      SF.ValidAlong(r, |r.evs|);
      var s := WokeIsStep(m, q);
      r := RunsJoin(r, s);
    }
  }

  // ---- many rounds ----

  ghost predicate FitAll(p: Policy, rs: seq<ClassRound>)
    decreases |rs|
  {
    rs == [] || (Fits(p, rs[0]) && FitAll(rs[0].after, rs[1..]))
  }

  ghost function Last(p: Policy, rs: seq<ClassRound>): Policy {
    if rs == [] then p else rs[|rs| - 1].after
  }

  // How many of the rounds charged the class.
  ghost function Charges(rs: seq<ClassRound>): nat {
    if rs == [] then 0 else (if rs[0].charged then 1 else 0) + Charges(rs[1..])
  }

  lemma ChargesOne(r: ClassRound)
    ensures Charges([r]) == if r.charged then 1 else 0
  {
    assert [r][1..] == [];
    assert Charges([r][1..]) == 0;
  }

  // The states the class goes through in a round.
  ghost function StateAt(r: ClassRound, j: nat): Policy {
    if j < |r.trail| then r.trail[j] else r.after
  }

  // The event charges the child in front what round r used.
  ghost predicate ChargeOf(ev: SF.Event<TrafficClass>, f: WF.Fair<TrafficClass>, r: ClassRound, shared: Resource) {
    r.charged && (ev.Ran? || ev.Blocked?) && ev.consumed == r.u.Of(shared) && f.runnable != [] && f.runnable[0].val.c == r.child
  }

  ghost predicate OfRounds(ev: SF.Event<TrafficClass>, f: WF.Fair<TrafficClass>, rs: seq<ClassRound>, shared: Resource) {
    ev.Woke? || exists k :: 0 <= k < |rs| && ChargeOf(ev, f, rs[k], shared)
  }

  ghost predicate InRounds(f: WF.Fair<TrafficClass>, rs: seq<ClassRound>) {
    exists k, j: nat :: 0 <= k < |rs| && j <= |rs[k].trail| && StateAt(rs[k], j).WeightedFair? && StateAt(rs[k], j).fair == f
  }

  // The run is made of the rounds: every state is one of theirs, every event a
  // waking or a charge of theirs, and there is one charge for each charged round.
  ghost predicate Mirrors(r: SF.Run<TrafficClass>, rs: seq<ClassRound>, shared: Resource) {
    && |r.states| == |r.evs| + 1
    && (forall i :: 0 <= i < |r.evs| ==> OfRounds(r.evs[i], r.states[i], rs, shared))
    && (if rs == [] then r.evs == [] else forall i :: 0 <= i < |r.states| ==> InRounds(r.states[i], rs))
    && ChargeEvents(r.evs) == Charges(rs)
  }

  ghost function ChargeEvents(evs: seq<SF.Event<TrafficClass>>): nat {
    if evs == [] then 0 else (if evs[0].Ran? || evs[0].Blocked? then 1 else 0) + ChargeEvents(evs[1..])
  }

  lemma {:induction false} ChargeEventsJoin(a: seq<SF.Event<TrafficClass>>, b: seq<SF.Event<TrafficClass>>)
    ensures ChargeEvents(a + b) == ChargeEvents(a) + ChargeEvents(b)
  {
    if a == [] {
      assert a + b == b;
    } else {
      assert (a + b)[1..] == a[1..] + b;
      ChargeEventsJoin(a[1..], b);
    }
  }

  lemma {:induction false} NoCharges(evs: seq<SF.Event<TrafficClass>>)
    requires forall i :: 0 <= i < |evs| ==> evs[i].Woke?
    ensures ChargeEvents(evs) == 0
  {
    if evs != [] { NoCharges(evs[1..]); }
  }

  lemma {:induction false} ChargeEventsAreRounds(r: SF.Run<TrafficClass>, i: nat)
    requires |r.states| == |r.evs| + 1 && i <= |r.evs|
    ensures SF.RoundsFrom(r, i) == ChargeEvents(r.evs[i..])
    decreases |r.evs| - i
  {
    if i < |r.evs| {
      ChargeEventsAreRounds(r, i + 1);
      assert r.evs[i..][1..] == r.evs[i + 1..];
    }
  }

  // A round of a weighted-fair class: it wakes children, then perhaps charges
  // the one it picked for what the round used.
  lemma RoundIsRun(p: Policy, c: ClassRound) returns (r: SF.Run<TrafficClass>)
    requires Fits(p, c) && p.WeightedFair? && WF.Valid(p.fair)
    ensures c.after.WeightedFair? && c.after.shared == p.shared
    ensures SF.IsRun(r) && r.states[0] == p.fair && r.states[|r.evs|] == c.after.fair
    ensures Mirrors(r, [c], p.shared)
  {
    hide SF.StepAt, WF.Valid;
    var n := |c.trail| - 1;
    var w := c.trail[n];
    var t := TrailIsRun(c.trail, p, w);
    NoCharges(t.evs);
    ChargesOne(c);
    forall i | 0 <= i < |t.states| ensures InRounds(t.states[i], [c]) { InTrail(c, i); }
    if !c.charged {
      return t;
    }
    var ev := if c.childBlocked then SF.Blocked(c.u.Of(p.shared)) else SF.Ran(c.u.Of(p.shared));
    SF.ValidAlong(t, n);
    var s := SingleStep(w.fair, c.after.fair, ev);
    r := RunsJoin(t, s);
    ChargeEventsJoin(t.evs, [ev]);
    assert ChargeOf(ev, w.fair, [c][0], p.shared);
    InTrail(c, |c.trail|);
  }

  lemma InTrail(c: ClassRound, j: nat)
    requires j <= |c.trail| && StateAt(c, j).WeightedFair?
    ensures InRounds(StateAt(c, j).fair, [c])
  {
    assert StateAt([c][0], j).WeightedFair?;
  }

  lemma LaterRound(rs: seq<ClassRound>, shared: Resource, ev: SF.Event<TrafficClass>, f: WF.Fair<TrafficClass>)
    requires rs != []
    ensures OfRounds(ev, f, rs[1..], shared) || OfRounds(ev, f, rs[..1], shared) ==> OfRounds(ev, f, rs, shared)
    ensures InRounds(f, rs[1..]) || InRounds(f, rs[..1]) ==> InRounds(f, rs)
  {
    if !ev.Woke? && OfRounds(ev, f, rs[1..], shared) {
      var k :| 0 <= k < |rs[1..]| && ChargeOf(ev, f, rs[1..][k], shared);
      assert ChargeOf(ev, f, rs[k + 1], shared);
    }
    if InRounds(f, rs[1..]) {
      var k, j: nat :| 0 <= k < |rs[1..]| && j <= |rs[1..][k].trail| && StateAt(rs[1..][k], j).WeightedFair? && StateAt(rs[1..][k], j).fair == f;
      assert StateAt(rs[k + 1], j).WeightedFair?;
    }
    if InRounds(f, rs[..1]) {
      var k, j: nat :| 0 <= k < |rs[..1]| && j <= |rs[..1][k].trail| && StateAt(rs[..1][k], j).WeightedFair? && StateAt(rs[..1][k], j).fair == f;
      assert StateAt(rs[k], j).WeightedFair?;
    }
  }

  lemma MirrorsJoin(f: SF.Run<TrafficClass>, q: SF.Run<TrafficClass>, j: SF.Run<TrafficClass>, rs: seq<ClassRound>, shared: Resource)
    requires rs != [] && Mirrors(f, rs[..1], shared) && Mirrors(q, rs[1..], shared) && f.states[|f.evs|] == q.states[0]
    requires j.states == f.states + q.states[1..] && j.evs == f.evs + q.evs
    ensures Mirrors(j, rs, shared)
  {
    hide OfRounds, InRounds;
    var n := |f.evs|;
    forall i | 0 <= i < |j.evs| ensures OfRounds(j.evs[i], j.states[i], rs, shared) {
      LaterRound(rs, shared, j.evs[i], j.states[i]);
      if i >= n { assert j.states[i] == q.states[i - n]; }
    }
    forall i | 0 <= i < |j.states| ensures InRounds(j.states[i], rs) {
      LaterRound(rs, shared, SF.Woke(0), j.states[i]);
      if i > n {
        assert j.states[i] == q.states[i - n];
      }
    }
    ChargeEventsJoin(f.evs, q.evs);
    assert rs[..1] == [rs[0]];
    ChargesOne(rs[0]);
  }

  // Any number of rounds make one run.
  lemma {:induction false} RoundsAreRun(p: Policy, rs: seq<ClassRound>) returns (r: SF.Run<TrafficClass>)
    requires FitAll(p, rs) && p.WeightedFair? && WF.Valid(p.fair)
    ensures Last(p, rs).WeightedFair? && Last(p, rs).shared == p.shared
    ensures SF.IsRun(r) && r.states[0] == p.fair && r.states[|r.evs|] == Last(p, rs).fair && Mirrors(r, rs, p.shared)
    decreases |rs|
  {
    hide Fits, WF.Valid, SF.StepAt;
    if rs == [] {
      r := SF.Run([p.fair], []);
    } else {
      hide Mirrors;
      var f := RoundIsRun(p, rs[0]);
      SF.ValidAlong(f, |f.evs|);
      var q := RoundsAreRun(rs[0].after, rs[1..]);
      r := RunsJoin(f, q);
      assert rs[..1] == [rs[0]];
      MirrorsJoin(f, q, r, rs, p.shared);
    }
  }

  ghost predicate CountOnes(rs: seq<ClassRound>) {
    forall k :: 0 <= k < |rs| ==> rs[k].u.count == 1
  }

  lemma RunCounts(r: SF.Run<TrafficClass>, rs: seq<ClassRound>)
    requires Mirrors(r, rs, Count) && CountOnes(rs)
    ensures SF.CountsAll(r)
  {
    hide InRounds;
    forall i | 0 <= i < |r.evs| ensures SF.Counts(r.evs[i]) {
      assert OfRounds(r.evs[i], r.states[i], rs, Count);
    }
  }

  // Rounds of a class that shares counts, with every share between 1 and 1024,
  // keep every runnable pass within 1024 of the smallest.
  lemma CountedRoundsKeepBand(p: Policy, rs: seq<ClassRound>)
    requires FitAll(p, rs) && p.WeightedFair? && WF.Valid(p.fair) && p.shared.Count? && CountOnes(rs)
    requires SF.AllShared(p.fair) && SF.Band(p.fair, 1024)
    ensures var q := Last(p, rs);
      q.WeightedFair? && WF.Valid(q.fair) && SF.AllShared(q.fair) && SF.Band(q.fair, 1024)
  {
    hide Fits, WF.Valid, SF.StepAt, SF.AllShared, SF.Band, Mirrors;
    var r := RoundsAreRun(p, rs);
    var n := |r.evs|;
    RunCounts(r, rs);
    SF.ValidAlong(r, n);
    SF.SharesAlong(r, n);
    SF.SharesCount(r);
    SF.BandAlong(r, 1, 1024, n);
  }

  // Child c is runnable, and only c and the classes ks are, in every state of
  // the class.
  ghost predicate RunnableWith(q: Policy, c: TrafficClass, ks: seq<TrafficClass>) {
    q.WeightedFair? ==> c in WF.Ids(q.fair.runnable) && WF.Ids(q.fair.runnable) <= {c} + set k | k in ks
  }

  ghost predicate Throughout(p: Policy, rs: seq<ClassRound>, c: TrafficClass, ks: seq<TrafficClass>) {
    && RunnableWith(p, c, ks)
    && forall k, j: nat :: 0 <= k < |rs| && j <= |rs[k].trail| ==> RunnableWith(StateAt(rs[k], j), c, ks)
  }

  lemma StaysThroughout(p: Policy, r: SF.Run<TrafficClass>, rs: seq<ClassRound>, c: TrafficClass, ks: seq<TrafficClass>)
    requires p.WeightedFair? && SF.IsRun(r) && r.states[0] == p.fair && Mirrors(r, rs, p.shared) && Throughout(p, rs, c, ks)
    ensures SF.StaysRunnable(r, c) && SF.Siblings(r, c, ks)
  {
    hide OfRounds, WF.Ids, SF.StepAt;
    forall i | 0 <= i < |r.states| ensures c in WF.Ids(r.states[i].runnable) && WF.Ids(r.states[i].runnable) <= {c} + set k | k in ks {
      if rs != [] {
        assert InRounds(r.states[i], rs);
        var k, j: nat :| 0 <= k < |rs| && j <= |rs[k].trail| && StateAt(rs[k], j).WeightedFair? && StateAt(rs[k], j).fair == r.states[i];
        assert RunnableWith(StateAt(rs[k], j), c, ks);
      }
    }
  }

  // No starvation, in rounds of the scheduler: a child that stays runnable is the
  // one the class picks and charges in one of any 1025 charged rounds per sibling.
  lemma NoStarvationOverRounds(p: Policy, rs: seq<ClassRound>, c: TrafficClass, ks: seq<TrafficClass>)
    requires FitAll(p, rs) && p.WeightedFair? && WF.Valid(p.fair) && p.shared.Count? && CountOnes(rs)
    requires SF.AllShared(p.fair) && SF.Band(p.fair, 1024) && Throughout(p, rs, c, ks)
    requires forall j :: 0 <= j < |ks| ==> ks[j] in WF.Ids(p.fair.runnable) + WF.Ids(p.fair.blocked)
    requires Charges(rs) > |ks| * 1025
    ensures exists k :: 0 <= k < |rs| && rs[k].charged && rs[k].child == c
  {
    hide Fits, WF.Valid, WF.Ids, SF.StepAt, SF.AllShared, SF.Band, SF.StaysRunnable, SF.Siblings;
    var r := RoundsAreRun(p, rs);
    StaysThroughout(p, r, rs, c, ks);
    RunCounts(r, rs);
    ChargeEventsAreRounds(r, 0);
    assert r.evs[0..] == r.evs;
    SF.NoStarvationByCount(r, c, ks);
    var i :| 0 <= i < |r.evs| && SF.PickedAt(r, i, c);
    assert OfRounds(r.evs[i], r.states[i], rs, p.shared);
    var k :| 0 <= k < |rs| && ChargeOf(r.evs[i], r.states[i], rs[k], p.shared);
  }
}
