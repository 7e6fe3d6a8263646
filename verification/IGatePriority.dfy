/** Input gate priorities: depth-first relaxation that leaves at every input gate
    the length of the longest path from a task module. */
module IGatePriority {

  // The module graph as the walk sees it. first lists, for each task module,
  // the input gates behind its output gates; next lists, for each input gate,
  // the ones behind the output gates of its module, and taskGates those input
  // gates that belong to a task module, where the walk ends.
  datatype Net<!G, !T> = Net(gates: set<G>, next: map<G, seq<G>>, taskGates: set<G>, first: map<T, seq<G>>)

  ghost predicate WellFormed<G(!new), T(!new)>(n: Net<G, T>) {
    && n.next.Keys == n.gates
    && (forall g, h :: g in n.gates && h in n.next[g] ==> h in n.gates)
    && (forall t, h :: t in n.first && h in n.first[t] ==> h in n.gates)
  }

  ghost predicate Step<G, T>(n: Net<G, T>, g: G, h: G) {
    g in n.next && g !in n.taskGates && h in n.next[g]
  }

  // A path of input gates from a task module, through no other task module.
  ghost predicate Path<G(!new), T(!new)>(n: Net<G, T>, ts: set<T>, p: seq<G>) {
    && p != [] && (exists t :: t in ts && t in n.first && p[0] in n.first[t])
    && forall i :: 0 < i < |p| ==> Step(n, p[i - 1], p[i])
  }

  ghost predicate PathTo<G(!new), T(!new)>(n: Net<G, T>, ts: set<T>, p: seq<G>, g: G) {
    Path(n, ts, p) && p[|p| - 1] == g
  }

  // No cycle: rank grows along every step.
  ghost predicate Ranked<G(!new), T(!new)>(n: Net<G, T>, rank: map<G, int>) {
    n.gates <= rank.Keys && forall g, h :: Step(n, g, h) ==> g in rank && h in rank && rank[g] < rank[h]
  }

  // Every priority is the length of some path from the tasks ts.
  ghost predicate Witnessed<G(!new), T(!new)>(n: Net<G, T>, ts: set<T>, prio: map<G, nat>) {
    forall g :: g in prio && prio[g] > 0 ==> exists p :: PathTo(n, ts, p, g) && |p| == prio[g]
  }

  // The successors of g are further away than g.
  ghost predicate Relaxed<G(!new), T(!new)>(n: Net<G, T>, prio: map<G, nat>, g: G) {
    g in prio && (prio[g] > 0 ==> forall h :: Step(n, g, h) ==> h in prio && prio[h] > prio[g])
  }

  // Everything but the gates in progress is relaxed.
  ghost predicate RelaxedBut<G(!new), T(!new)>(n: Net<G, T>, prio: map<G, nat>, e: set<G>) {
    forall g :: g in n.gates && g !in e ==> Relaxed(n, prio, g)
  }

  ghost predicate Raised<G>(a: map<G, nat>, b: map<G, nat>) {
    a.Keys == b.Keys && forall g :: g in a ==> a[g] <= b[g]
  }

  // ---- longest paths ----

  // Once everything is relaxed, no path is longer than the priority at its end.
  lemma {:induction false} PathBounded<G(!new), T(!new)>(n: Net<G, T>, ts: set<T>, prio: map<G, nat>, p: seq<G>)
    requires WellFormed(n) && prio.Keys == n.gates && RelaxedBut(n, prio, {}) && Path(n, ts, p)
    requires forall t, g :: t in ts && t in n.first && g in n.first[t] ==> prio[g] >= 1
    ensures p[|p| - 1] in prio && prio[p[|p| - 1]] >= |p|
  {
    if |p| > 1 {
      var q := p[..|p| - 1];
      PathBounded(n, ts, prio, q);
      assert Step(n, p[|p| - 2], p[|p| - 1]);
      assert Relaxed(n, prio, p[|p| - 2]);
    }
  }

  // The priority is the length of the longest path from any of the tasks, and
  // zero without one.
  ghost predicate LongestPath<G(!new), T(!new)>(n: Net<G, T>, ts: set<T>, g: G, k: nat) {
    && (forall p :: PathTo(n, ts, p, g) ==> |p| <= k)
    && (k > 0 ==> exists p :: PathTo(n, ts, p, g) && |p| == k)
  }

  lemma PrioritiesAreLongest<G(!new), T(!new)>(n: Net<G, T>, ts: set<T>, prio: map<G, nat>)
    requires WellFormed(n) && prio.Keys == n.gates && Witnessed(n, ts, prio) && RelaxedBut(n, prio, {})
    requires forall t, g :: t in ts && t in n.first && g in n.first[t] ==> prio[g] >= 1
    ensures forall g :: g in n.gates ==> LongestPath(n, ts, g, prio[g])
  {
    forall g, p | g in n.gates && PathTo(n, ts, p, g) ensures |p| <= prio[g] {
      PathBounded(n, ts, prio, p);
    }
  }

  // ---- the walk ----

  ghost predicate Before<G(!new)>(rank: map<G, int>, e: set<G>, g: G) {
    g in rank && forall x :: x in e ==> x in rank && rank[x] <= rank[g]
  }

  // Only gates after g were raised.
  ghost predicate RaisedAfter<G(!new)>(rank: map<G, int>, a: map<G, nat>, b: map<G, nat>, g: G) {
    a.Keys == b.Keys && g in rank && forall x :: x in a && a[x] != b[x] ==> x in rank && rank[x] > rank[g]
  }

  ghost predicate Sane<G(!new), T(!new)>(n: Net<G, T>, prio: map<G, nat>) {
    WellFormed(n) && prio.Keys == n.gates
  }

  // Raising one gate to the length of a path that reaches it.
  lemma RaiseKeeps<G(!new), T(!new)>(n: Net<G, T>, ts: set<T>, prio: map<G, nat>, p: seq<G>, h: G)
    requires PathTo(n, ts, p, h) && h in prio && prio[h] < |p|
    ensures Raised(prio, prio[h := |p|]) && (Witnessed(n, ts, prio) ==> Witnessed(n, ts, prio[h := |p|]))
  {
    var q := prio[h := |p|];
    forall g | Witnessed(n, ts, prio) && g in q && q[g] > 0 ensures exists r :: PathTo(n, ts, r, g) && |r| == q[g] {
      if g == h {
        assert PathTo(n, ts, p, g) && |p| == q[g];
      } else {
        assert prio[g] > 0;
      }
    }
  }

  lemma RaiseRelaxed<G(!new), T(!new)>(n: Net<G, T>, prio: map<G, nat>, e: set<G>, h: G, k: nat)
    requires prio.Keys == n.gates && RelaxedBut(n, prio, e) && h in n.gates && prio[h] <= k
    ensures RelaxedBut(n, prio[h := k], e + {h})
  {
    forall g | g in n.gates && g !in e + {h} ensures Relaxed(n, prio[h := k], g) {
      assert Relaxed(n, prio, g);
    }
  }

  lemma PathExtends<G(!new), T(!new)>(n: Net<G, T>, ts: set<T>, p: seq<G>, g: G, h: G)
    requires PathTo(n, ts, p, g) && Step(n, g, h)
    ensures PathTo(n, ts, p + [h], h)
  {
  }

  lemma PathStarts<G(!new), T(!new)>(n: Net<G, T>, ts: set<T>, t: T, h: G)
    requires t in ts && t in n.first && h in n.first[t]
    ensures PathTo(n, ts, [h], h)
  {
  }

  lemma LastRelaxed<G(!new), T(!new)>(n: Net<G, T>, prio: map<G, nat>, e: set<G>, g: G)
    requires RelaxedBut(n, prio, e) ==> Relaxed(n, prio, g)
    ensures RelaxedBut(n, prio, e) ==> RelaxedBut(n, prio, e - {g})
  {
  }

  ghost function Members<T>(s: seq<T>): set<T> {
    set t | t in s
  }

  // A positive priority is 1 at a first gate, or one more than that of some
  // predecessor that has one.
  ghost predicate Supported<G(!new), T(!new)>(n: Net<G, T>, ts: set<T>, prio: map<G, nat>, g: G) {
    g in prio && (prio[g] > 0 ==>
      || (prio[g] == 1 && exists t :: t in ts && t in n.first && g in n.first[t])
      || exists h :: Step(n, h, g) && h in prio && prio[h] > 0 && prio[g] == prio[h] + 1)
  }

  // The priorities fit the links next to each gate.
  ghost predicate UpToDate<G(!new), T(!new)>(n: Net<G, T>, ts: set<T>, prio: map<G, nat>) {
    forall g :: g in n.gates ==> Supported(n, ts, prio, g) && Relaxed(n, prio, g)
  }

  // Then each is the length of a path.
  lemma {:induction false} SupportedPath<G(!new), T(!new)>(n: Net<G, T>, ts: set<T>, prio: map<G, nat>, g: G) returns (p: seq<G>)
    requires prio.Keys == n.gates && g in prio && prio[g] > 0 && forall x :: x in n.gates ==> Supported(n, ts, prio, x)
    ensures PathTo(n, ts, p, g) && |p| == prio[g]
    decreases prio[g]
  {
    assert Supported(n, ts, prio, g);
    if prio[g] == 1 && exists t :: t in ts && t in n.first && g in n.first[t] {
      var t :| t in ts && t in n.first && g in n.first[t];
      PathStarts(n, ts, t, g);
      p := [g];
    } else {
      var h :| Step(n, h, g) && h in prio && prio[h] > 0 && prio[g] == prio[h] + 1;
      p := SupportedPath(n, ts, prio, h);
      PathExtends(n, ts, p, h, g);
      p := p + [g];
    }
  }

  lemma UpToDateFacts<G(!new), T(!new)>(n: Net<G, T>, ts: set<T>, prio: map<G, nat>)
    requires prio.Keys == n.gates && UpToDate(n, ts, prio)
    ensures Witnessed(n, ts, prio) && RelaxedBut(n, prio, {})
  {
    forall g | g in prio && prio[g] > 0 ensures exists p :: PathTo(n, ts, p, g) && |p| == prio[g] {
      var p := SupportedPath(n, ts, prio, g);
    }
  }

  // A graph that was never updated.
  lemma ZeroIsUpToDate<G(!new), T(!new)>(n: Net<G, T>, ts: set<T>, prio: map<G, nat>)
    requires prio.Keys == n.gates && forall g :: g in prio ==> prio[g] == 0
    ensures UpToDate(n, ts, prio)
  {
  }

  // Every input gate directly behind a task module has a priority already.
  ghost predicate FirstDone<G(!new), T(!new)>(n: Net<G, T>, ts: set<T>, prio: map<G, nat>) {
    forall t, g :: t in ts && t in n.first && g in n.first[t] ==> g in prio && prio[g] >= 1
  }

  class PriorityWalk<G(==, !new), T(==, !new)> {
    const net: Net<G, T>
    ghost const rank: map<G, int>
    var prio: map<G, nat>

    // The graph as it is now, with the priorities its gates got so far; order is
    // any ranking a reader may have of the gates.
    constructor (n: Net<G, T>, current: map<G, nat>, ghost order: map<G, int>)
      requires WellFormed(n) && current.Keys == n.gates
      ensures net == n && rank == order && prio == current
    {
      net := n;
      rank := order;
      prio := current;
    }

    // Continues behind input gate g, reached by a path of priority - 1 gates.
    // It ends on every graph; on one without cycles it leaves g relaxed.
    method PropagateIGatePriority(g: G, visited: set<G>, priority: nat, ghost ts: set<T>, ghost path: seq<G>)
      requires Sane(net, prio) && visited <= net.gates && g in visited
      requires PathTo(net, ts, path, g) && |path| == priority - 1 && prio[g] == priority - 1
      modifies this`prio
      ensures Sane(net, prio) && Raised(old(prio), prio) && (Witnessed(net, ts, old(prio)) ==> Witnessed(net, ts, prio))
      ensures Ranked(net, rank) && Before(rank, visited, g) ==> RaisedAfter(rank, old(prio), prio, g)
      ensures Ranked(net, rank) && Before(rank, visited, g) && RelaxedBut(net, old(prio), visited) ==>
                RelaxedBut(net, prio, visited - {g})
      decreases net.gates - visited
    {
      hide Witnessed, PathTo, RelaxedBut;
      ghost var was := prio;
      if g in net.taskGates {
        LastRelaxed(net, prio, visited, g);
        return;
      }
      ghost var acyclic := Ranked(net, rank) && Before(rank, visited, g);
      ghost var relaxed := acyclic && RelaxedBut(net, prio, visited);
      for i := 0 to |net.next[g]|
        invariant Sane(net, prio) && Raised(was, prio) && (Witnessed(net, ts, was) ==> Witnessed(net, ts, prio))
        invariant acyclic ==> RaisedAfter(rank, was, prio, g)
        invariant acyclic ==> forall h :: h in net.next[g][..i] ==> prio[h] >= priority
        invariant relaxed ==> RelaxedBut(net, prio, visited)
      {
        var h := net.next[g][i];
        assert Step(net, g, h);
        if h in visited || prio[h] >= priority {
          continue;
        }
        PathExtends(net, ts, path, g, h);
        RaiseKeeps(net, ts, prio, path + [h], h);
        if relaxed { RaiseRelaxed(net, prio, visited, h, priority); }
        prio := prio[h := priority];
        assert visited + {h} - {h} == visited;
        PropagateIGatePriority(h, visited + {h}, priority + 1, ts, path + [h]);
      }
      assert net.next[g][..|net.next[g]|] == net.next[g];
      if relaxed { LastRelaxed(net, prio, visited, g); }
    }

    // One task module: its first gates have priority 1 at least. Gates that have
    // one already are not walked again.
    method SetIGatePriority(task: T, ghost ts: set<T>)
      requires task in net.first && task in ts && Sane(net, prio)
      modifies this`prio
      ensures Sane(net, prio) && Raised(old(prio), prio) && (Witnessed(net, ts, old(prio)) ==> Witnessed(net, ts, prio))
      ensures forall g :: g in net.first[task] ==> prio[g] >= 1
      ensures (forall g :: g in net.first[task] ==> old(prio)[g] >= 1) ==> prio == old(prio)
      ensures Ranked(net, rank) && RelaxedBut(net, old(prio), {}) ==> RelaxedBut(net, prio, {})
    {
      hide Witnessed, PathTo, RelaxedBut, RaisedAfter, Step;
      ghost var was := prio;
      for i := 0 to |net.first[task]|
        invariant Sane(net, prio) && Raised(was, prio) && (Witnessed(net, ts, was) ==> Witnessed(net, ts, prio))
        invariant forall h :: h in net.first[task][..i] ==> prio[h] >= 1
        invariant (forall g :: g in net.first[task] ==> was[g] >= 1) ==> prio == was
        invariant Ranked(net, rank) && RelaxedBut(net, was, {}) ==> RelaxedBut(net, prio, {})
      {
        var h := net.first[task][i];
        if prio[h] >= 1 {
          continue;
        }
        PathStarts(net, ts, task, h);
        RaiseKeeps(net, ts, prio, [h], h);
        if RelaxedBut(net, prio, {}) { RaiseRelaxed(net, prio, {}, h, 1); }
        prio := prio[h := 1];
        assert {} + {h} == {h} && {h} - {h} == {};
        PropagateIGatePriority(h, {h}, 2, ts, [h]);
      }
      assert net.first[task][..|net.first[task]|] == net.first[task];
    }

    // All task modules in turn. Priorities that were up to date for the graph
    // become longest paths; when every first gate has a priority already, nothing
    // changes at all.
    method UpdateTaskGraph(tasks: seq<T>)
      requires WellFormed(net) && prio.Keys == net.gates && forall t :: t in tasks ==> t in net.first
      modifies this`prio
      ensures prio.Keys == net.gates && Raised(old(prio), prio) && FirstDone(net, Members(tasks), prio)
      ensures Ranked(net, rank) && UpToDate(net, Members(tasks), old(prio)) ==>
                UpToDate(net, Members(tasks), prio) && forall g :: g in net.gates ==> LongestPath(net, Members(tasks), g, prio[g])
      ensures FirstDone(net, Members(tasks), old(prio)) ==> prio == old(prio)
    {
      hide Witnessed, RelaxedBut, LongestPath, UpToDate;
      ghost var ts := Members(tasks);
      ghost var was := prio;
      for i := 0 to |tasks|
        invariant Sane(net, prio) && Raised(was, prio) && (Witnessed(net, ts, was) ==> Witnessed(net, ts, prio))
        invariant Ranked(net, rank) && RelaxedBut(net, was, {}) ==> RelaxedBut(net, prio, {})
        invariant forall t, g :: t in tasks[..i] && g in net.first[t] ==> prio[g] >= 1
        invariant FirstDone(net, ts, was) ==> prio == was
      {
        assert tasks[i] in ts;
        SetIGatePriority(tasks[i], ts);
      }
      assert tasks[..|tasks|] == tasks;
      if Ranked(net, rank) && UpToDate(net, ts, was) {
        UpToDateFacts(net, ts, was);
        PrioritiesAreLongest(net, ts, prio);
        LongestIsUpToDate(net, ts, prio);
      }
    }
  }

  // ---- a later update ----

  lemma LongestRelaxed<G(!new), T(!new)>(n: Net<G, T>, ts: set<T>, prio: map<G, nat>, g: G)
    requires WellFormed(n) && prio.Keys == n.gates && g in n.gates && forall x :: x in n.gates ==> LongestPath(n, ts, x, prio[x])
    ensures Relaxed(n, prio, g)
  {
    forall h | prio[g] > 0 && Step(n, g, h) ensures h in prio && prio[h] > prio[g] {
      assert LongestPath(n, ts, g, prio[g]) && h in n.next[g] && LongestPath(n, ts, h, prio[h]);
      var p :| PathTo(n, ts, p, g) && |p| == prio[g];
      PathExtends(n, ts, p, g, h);
    }
  }

  lemma LongestSupported<G(!new), T(!new)>(n: Net<G, T>, ts: set<T>, prio: map<G, nat>, g: G)
    requires WellFormed(n) && prio.Keys == n.gates && g in n.gates && forall x :: x in n.gates ==> LongestPath(n, ts, x, prio[x])
    ensures Supported(n, ts, prio, g)
  {
    if prio[g] > 0 {
      assert LongestPath(n, ts, g, prio[g]);
      var p :| PathTo(n, ts, p, g) && |p| == prio[g];
      if |p| > 1 {
        var q, h := p[..|p| - 1], p[|p| - 2];
        assert Step(n, h, g) && PathTo(n, ts, q, h);
        assert LongestPath(n, ts, h, prio[h]);
        LongestRelaxed(n, ts, prio, h);
      }
    }
  }

  lemma LongestIsUpToDate<G(!new), T(!new)>(n: Net<G, T>, ts: set<T>, prio: map<G, nat>)
    requires WellFormed(n) && prio.Keys == n.gates && forall g :: g in n.gates ==> LongestPath(n, ts, g, prio[g])
    ensures UpToDate(n, ts, prio)
  {
    hide LongestPath, Supported, Relaxed;
    forall g | g in n.gates ensures Supported(n, ts, prio, g) && Relaxed(n, prio, g) {
      LongestRelaxed(n, ts, prio, g);
      LongestSupported(n, ts, prio, g);
    }
  }

  // When every first gate has a priority already, an update changes nothing, so
  // it leaves longest paths exactly when the priorities fitted the links before.
  lemma RightIffUpToDate<G(!new), T(!new)>(n: Net<G, T>, ts: set<T>, prio: map<G, nat>)
    requires WellFormed(n) && prio.Keys == n.gates && FirstDone(n, ts, prio)
    ensures (forall g :: g in n.gates ==> LongestPath(n, ts, g, prio[g])) <==> UpToDate(n, ts, prio)
  {
    if UpToDate(n, ts, prio) {
      UpToDateFacts(n, ts, prio);
      PrioritiesAreLongest(n, ts, prio);
    }
    if forall g :: g in n.gates ==> LongestPath(n, ts, g, prio[g]) {
      LongestIsUpToDate(n, ts, prio);
    }
  }

  // Gate 1 was linked behind gate 0 after gate 0 had got its priority: the update
  // leaves gate 1 at zero, in front of gate 0.
  lemma LaterLinkMissed()
    ensures var n: Net<nat, bool> := Net({0, 1}, map[0 := [1], 1 := []], {}, map[true := [0]]);
      var prio: map<nat, nat> := map[0 := 1, 1 := 0];
      && WellFormed(n) && Ranked(n, map[0 := 0, 1 := 1]) && prio.Keys == n.gates && FirstDone(n, {true}, prio)
      && !LongestPath(n, {true}, 1, prio[1])
  {
    var n: Net<nat, bool> := Net({0, 1}, map[0 := [1], 1 := []], {}, map[true := [0]]);
    assert 0 in n.first[true] && Step(n, 0, 1);
    assert PathTo(n, {true}, [0, 1], 1);
  }
}
