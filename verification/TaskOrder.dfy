/** What gate priorities are for: when priorities grow along the links, as longest
    paths do, a gate at which batches are merged runs only when nothing that could
    still reach it is under way, so that nothing comes to it afterwards. */
module TaskOrder {
  import opened TaskRun

  // Priorities grow along every link.
  ghost predicate Ordered<M(!new)>(n: Net<M>) {
    forall g, h :: Linked(n, g, h) && h in n.igates ==> n.igates[g].priority < n.igates[h].priority
  }

  // A way through the graph with at least one link.
  ghost predicate Way<M(!new)>(n: Net<M>, r: seq<nat>, h: nat, g: nat) {
    |r| > 1 && r[0] == h && r[|r| - 1] == g && forall i :: 0 < i < |r| ==> Linked(n, r[i - 1], r[i])
  }

  ghost predicate Reaches<M(!new)>(n: Net<M>, h: nat, g: nat) {
    exists r :: Way(n, r, h, g)
  }

  lemma LinkedGates<M(!new)>(n: Net<M>, g: nat, h: nat)
    requires WellFormed(n) && Linked(n, g, h)
    ensures g in n.igates && h in n.igates
  {
  }

  lemma {:induction false} WayGrows<M(!new)>(n: Net<M>, r: seq<nat>, h: nat, g: nat)
    requires WellFormed(n) && Ordered(n) && Way(n, r, h, g)
    ensures h in n.igates && g in n.igates && n.igates[h].priority < n.igates[g].priority
    decreases |r|
  {
    hide WellFormed, Linked;
    var k := |r| - 1;
    assert Linked(n, r[k - 1], r[k]);
    LinkedGates(n, r[k - 1], r[k]);
    if k > 1 {
      WayGrows(n, r[..k], h, r[k - 1]);
    }
  }

  lemma ReachesFirst<M(!new)>(n: Net<M>, h: nat, x: nat, g: nat)
    requires Linked(n, h, x) && (x == g || Reaches(n, x, g))
    ensures Reaches(n, h, g)
  {
    hide Linked;
    if x == g {
      assert Way(n, [h, x], h, g);
    } else {
      var r :| Way(n, r, x, g);
      assert Way(n, [h] + r, h, g);
    }
  }

  // When a mergeable gate has its turn, no packet under way can still reach it.
  lemma NothingUpstream<M(!new), P(!new)>(n: Net<M>, l: Ledger<P>, g: nat, ps: seq<P>, p: P, h: nat)
    requires WellFormed(n) && Ordered(n) && Turn(n, l, g, ps) && n.igates[g].mergeable && Bound(l, p, h)
    ensures !Reaches(n, h, g)
  {
    hide WellFormed, Bound;
    if Reaches(n, h, g) {
      var r :| Way(n, r, h, g);
      WayGrows(n, r, h, g);
    }
  }

  // Everything under way stays clear of g, except the packets that waited there.
  ghost predicate Clear<M(!new), P(!new)>(n: Net<M>, first: Ledger<P>, l: Ledger<P>, g: nat) {
    forall p, h :: Bound(l, p, h) ==> !Reaches(n, h, g) && (h == g ==> Bound(first, p, g))
  }

  // Where a packet that was not handed over is bound for does not change.
  lemma BoundBefore<M(!new), P(!new)>(n: Net<M>, l: Ledger<P>, k: Ledger<P>, x: nat, ps: seq<P>, plan: Plan, p: P, h: nat)
    requires Delivered(n, l, k, x, ps, plan) && Turn(n, l, x, ps) && Bound(k, p, h) && p !in ps
    ensures Bound(l, p, h)
  {
    hide Obeyed, Distinct;
    assert p in l.place;
    assert !Still(l, p);
    var y := l.home[l.place[p].batch].g;
    assert Bound(l, p, y);
  }

  // A packet that was handed over is bound for a gate behind.
  lemma BoundBehind<M(!new), P(!new)>(n: Net<M>, l: Ledger<P>, k: Ledger<P>, x: nat, ps: seq<P>, plan: Plan, i: nat, h: nat)
    requires Delivered(n, l, k, x, ps, plan) && i < |ps| && Bound(k, ps[i], h)
    ensures Linked(n, x, h)
  {
    hide Others, Distinct;
    assert Obeyed(n, n.igates[x].mod, k, ps[i], Decision(plan, i));
    match Decision(plan, i) {
      case Emit(o) =>
        assert IsOGate(n, n.igates[x].mod, o, n.ogates[n.igates[x].mod][o].value);
      case _ =>
    }
  }

  lemma ClearStep<M(!new), P(!new)>(n: Net<M>, first: Ledger<P>, l: Ledger<P>, k: Ledger<P>, g: nat, x: nat, ps: seq<P>, plan: Plan)
    requires Clear(n, first, l, g) && Delivered(n, l, k, x, ps, plan) && Turn(n, l, x, ps)
    ensures Clear(n, first, k, g)
  {
    forall p, h | Bound(k, p, h) ensures !Reaches(n, h, g) && (h == g ==> Bound(first, p, g)) {
      if p in ps {
        var i :| 0 <= i < |ps| && ps[i] == p;
        assert Bound(l, ps[i], x);
        hide Delivered, Turn, Bound, Reaches, Linked;
        BoundBehind(n, l, k, x, ps, plan, i, h);
        if h == g || Reaches(n, h, g) { ReachesFirst(n, x, h, g); }
      } else {
        hide Delivered, Turn, Bound, Reaches;
        BoundBefore(n, l, k, x, ps, plan, p, h);
      }
    }
  }

  // Once a mergeable gate g had its turn in round i of a run, nothing is ever
  // sent to it again: whatever waits there later waited there then.
  lemma {:induction false} RunsLast<M(!new), P(!new)>(n: Net<M>, decide: (nat, M, nat, seq<P>) -> Plan, trace: seq<Ledger<P>>,
                                                     rounds: seq<Round<P>>, i: nat, j: nat)
    requires WellFormed(n) && Ordered(n) && History(n, decide, trace, rounds) && i <= j < |trace| && i < |rounds|
    requires rounds[i].gate in n.igates && n.igates[rounds[i].gate].mergeable
    ensures Clear(n, trace[i], trace[j], rounds[i].gate)
    decreases j
  {
    hide WellFormed, Ordered, Reaches, Bound, Delivered, Turn;
    var g := rounds[i].gate;
    if j == i {
      assert RoundAt(n, decide, trace, rounds, i);
      forall p, h | Bound(trace[i], p, h) ensures !Reaches(n, h, g) {
        NothingUpstream(n, trace[i], g, rounds[i].ps, p, h);
      }
    } else {
      RunsLast(n, decide, trace, rounds, i, j - 1);
      assert RoundAt(n, decide, trace, rounds, j - 1);
      var r := rounds[j - 1];
      ClearStep(n, trace[i], trace[j - 1], trace[j], g, r.gate, r.ps, r.plan);
    }
  }

  // So every later round of that gate only hands over packets that waited there.
  lemma NoLateArrivals<M(!new), P(!new)>(n: Net<M>, decide: (nat, M, nat, seq<P>) -> Plan, trace: seq<Ledger<P>>,
                                         rounds: seq<Round<P>>, i: nat, j: nat, p: P)
    requires WellFormed(n) && Ordered(n) && History(n, decide, trace, rounds) && i <= j < |rounds|
    requires rounds[i].gate in n.igates && n.igates[rounds[i].gate].mergeable && rounds[j].gate == rounds[i].gate && p in rounds[j].ps
    ensures Bound(trace[i], p, rounds[i].gate)
  {
    RunsLast(n, decide, trace, rounds, i, j);
    hide WellFormed, Ordered, Reaches, Turn, Others, Obeyed;
    assert RoundAt(n, decide, trace, rounds, j);
    var k :| 0 <= k < |rounds[j].ps| && rounds[j].ps[k] == p;
    assert Bound(trace[j], rounds[j].ps[k], rounds[j].gate);
  }
}
