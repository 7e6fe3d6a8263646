/** The child lists of a round-robin traffic class and what they mean: a cyclic
    queue of runnable children, starting at next_child_. */
module RoundRobin {
  import opened ExtendedPriorityQueue

  datatype Ring<C> = Ring(next: nat, runnable: seq<C>, blocked: seq<C>)

  ghost function Members<C>(r: Ring<C>): multiset<C> {
    multiset(r.runnable) + multiset(r.blocked)
  }

  ghost predicate Unique<C>(m: multiset<C>) {
    forall c :: c in m ==> m[c] == 1
  }

  ghost predicate Valid<C>(r: Ring<C>) {
    && Unique(Members(r))
    && (r.next < |r.runnable| || (r.next == 0 && r.runnable == []))
  }

  ghost function Elems<C>(s: seq<C>): set<C> {
    set c | c in s
  }

  lemma ElemsCons<C>(c: C, s: seq<C>)
    ensures Elems([c] + s) == {c} + Elems(s)
  {
  }

  // The abstract queue: what will be picked, in order.
  ghost function Cycle<C>(r: Ring<C>): seq<C>
    requires r.next <= |r.runnable|
  {
    r.runnable[r.next..] + r.runnable[..r.next]
  }

  // The children of s that are not in the blocked set.
  ghost function Keep<C>(s: seq<C>, flagged: set<C>): (k: seq<C>) {
    if s == [] then []
    else if s[0] in flagged then Keep(s[1..], flagged)
    else [s[0]] + Keep(s[1..], flagged)
  }

  lemma {:induction false} KeepConcat<C>(a: seq<C>, b: seq<C>, flagged: set<C>)
    ensures Keep(a + b, flagged) == Keep(a, flagged) + Keep(b, flagged)
  {
    if a == [] {
      assert a + b == b;
    } else {
      assert (a + b)[1..] == a[1..] + b;
      KeepConcat(a[1..], b, flagged);
    }
  }

  lemma {:induction false} KeepAll<C>(s: seq<C>, flagged: set<C>)
    requires forall c :: c in s ==> c !in flagged
    ensures Keep(s, flagged) == s
  {
    if s != [] {
      assert s[0] in s;
      forall c | c in s[1..] ensures c !in flagged { assert c in s; }
      KeepAll(s[1..], flagged);
    }
  }

  // runnable_children_.erase(begin + i), then next_child_ follows the element
  // it pointed at and wraps at the end.
  function Erase<C>(r: Ring<C>, i: nat): (e: Ring<C>)
    requires i < |r.runnable|
  {
    var run := Without(r.runnable, i);
    var next := if r.next > i then r.next - 1 else r.next;
    r.(runnable := run, next := if next >= |run| then 0 else next)
  }

  // Where the element at vector position i stands in the cyclic queue.
  ghost function CyclePos<C>(r: Ring<C>, i: nat): (p: nat)
    requires r.next <= |r.runnable| && i < |r.runnable|
    ensures p < |r.runnable| && Cycle(r)[p] == r.runnable[i]
  {
    if i >= r.next then i - r.next else |r.runnable| - r.next + i
  }

  // Erasing one child deletes it from the cyclic queue and skips nobody.
  lemma EraseCycle<C>(r: Ring<C>, i: nat)
    requires r.next < |r.runnable| && i < |r.runnable|
    ensures Erase(r, i).next <= |Erase(r, i).runnable| && |Cycle(r)| == |r.runnable|
    ensures Cycle(Erase(r, i)) == Without(Cycle(r), CyclePos(r, i))
  {
    if i >= r.next { EraseAhead(r.runnable, r.next, i); } else { EraseBehind(r.runnable, r.next, i); }
    var rest := Without(r.runnable, i);
    assert |rest| == |r.runnable| - 1;
    WrapSame(rest);
    hide Without;
  }

  // Standing behind the last element is standing at the first.
  lemma WrapSame<C>(s: seq<C>)
    ensures s[|s|..] + s[..|s|] == s[0..] + s[..0]
  {
  }

  lemma EraseAhead<C>(run: seq<C>, next: nat, i: nat)
    requires next <= i < |run|
    ensures var rest := Without(run, i);
            rest[next..] + rest[..next] == Without(run[next..] + run[..next], i - next)
  {
    var c, rest := run[next..] + run[..next], Without(run, i);
    assert rest[next..] == run[next..i] + run[i + 1..];
    assert rest[..next] == run[..next];
    assert c[..i - next] == run[next..i];
    assert c[i - next + 1..] == run[i + 1..] + run[..next];
  }

  lemma EraseBehind<C>(run: seq<C>, next: nat, i: nat)
    requires i < next < |run|
    ensures var rest := Without(run, i);
            rest[next - 1..] + rest[..next - 1] == Without(run[next..] + run[..next], |run| - next + i)
  {
    var c, rest := run[next..] + run[..next], Without(run, i);
    assert rest[next - 1..] == run[next..];
    assert rest[..next - 1] == run[..i] + run[i + 1..next];
    assert c[..|run| - next + i] == run[next..] + run[..i];
    assert c[|run| - next + i + 1..] == run[i + 1..next];
  }

  lemma KeepWithout<C>(s: seq<C>, p: nat, flagged: set<C>)
    requires p < |s| && s[p] in flagged
    ensures Keep(Without(s, p), flagged) == Keep(s, flagged)
  {
    assert s == s[..p] + [s[p]] + s[p + 1..];
    KeepConcat(s[..p] + [s[p]], s[p + 1..], flagged);
    KeepConcat(s[..p], [s[p]], flagged);
    KeepConcat(s[..p], s[p + 1..], flagged);
  }

  // Progress of the scan: b is r with some flagged children moved out, and
  // none of the first i runnable children of b is flagged.
  ghost predicate Scanned<C>(r: Ring<C>, b: Ring<C>, i: nat, flagged: set<C>)
    requires Valid(r)
  {
    && Valid(b) && Members(b) == Members(r) && i <= |b.runnable|
    && Keep(Cycle(b), flagged) == Keep(Cycle(r), flagged)
    && (forall j :: 0 <= j < i ==> b.runnable[j] !in flagged)
    && Elems(r.runnable) - flagged <= Elems(b.runnable) <= Elems(r.runnable)
    && Elems(b.blocked) == Elems(r.blocked) + (Elems(r.runnable) - Elems(b.runnable))
  }

  lemma CycleOther<C>(r: Ring<C>, blocked: seq<C>)
    requires r.next <= |r.runnable|
    ensures Cycle(r.(blocked := blocked)) == Cycle(r)
  {
  }

  lemma EraseStep<C>(r: Ring<C>, b: Ring<C>, i: nat, flagged: set<C>)
    requires Valid(r) && Scanned(r, b, i, flagged)
    requires i < |b.runnable| && b.runnable[i] in flagged
    ensures Scanned(r, Erase(b, i).(blocked := b.blocked + [b.runnable[i]]), i, flagged)
  {
    hide Cycle, Keep, Without, CyclePos;
    var c := b.runnable[i];
    EraseCycle(b, i);
    KeepWithout(Cycle(b), CyclePos(b, i), flagged);
    CycleOther(Erase(b, i), b.blocked + [c]);
    EraseLists(b, i);
    ErasePrefix(b, i);
    hide Erase, Members, Unique;
  }

  lemma ErasePrefix<C>(b: Ring<C>, i: nat)
    requires i < |b.runnable|
    ensures i <= |Erase(b, i).runnable| && forall j :: 0 <= j < i ==> Erase(b, i).runnable[j] == b.runnable[j]
  {
  }

  // The erased child moved over to the blocked ones.
  lemma EraseLists<C>(b: Ring<C>, i: nat)
    requires Valid(b) && i < |b.runnable|
    ensures var e := Erase(b, i).(blocked := b.blocked + [b.runnable[i]]);
      && Valid(e) && Members(e) == Members(b)
      && Elems(e.runnable) == Elems(b.runnable) - {b.runnable[i]}
      && Elems(e.blocked) == Elems(b.blocked) + {b.runnable[i]}
  {
    WithoutOne(b.runnable, i, b.blocked);
    WithoutBag(b.runnable, i);
    var e := Erase(b, i).(blocked := b.blocked + [b.runnable[i]]);
    assert |e.runnable| == |b.runnable| - 1;
    hide Without;
    assert multiset(e.runnable) == multiset(b.runnable) - multiset{b.runnable[i]};
    assert multiset(e.blocked) == multiset(b.blocked) + multiset{b.runnable[i]};
    assert Members(e) == Members(b);
    assert Elems(e.blocked) == Elems(b.blocked) + {b.runnable[i]};
  }

  // BlockTowardsRoot: children found blocked leave the queue; the others keep
  // their cyclic order.
  method Block<C>(r: Ring<C>, flagged: set<C>) returns (b: Ring<C>)
    requires Valid(r)
    ensures Valid(b) && Members(b) == Members(r)
    ensures Cycle(b) == Keep(Cycle(r), flagged) == Keep(Cycle(r), Elems(b.blocked))
    ensures Elems(b.runnable) == Elems(r.runnable) - flagged
    ensures Elems(b.blocked) == Elems(r.blocked) + Elems(r.runnable) * flagged
    ensures Elems(r.runnable) !! flagged ==> b == r
  {
    b := r;
    var i := 0;
    while i < |b.runnable|
      invariant Scanned(r, b, i, flagged) && (Elems(r.runnable) !! flagged ==> b == r)
      decreases |b.runnable| - i
    {
      var c := b.runnable[i];
      if c in flagged {
        EraseStep(r, b, i, flagged);
        b := Erase(b, i).(blocked := b.blocked + [c]);
      } else {
        i := i + 1;
      }
    }
    KeepAll(Cycle(b), flagged);
    BlockedIsFlagged(r, b, flagged);
  }

  lemma BlockedIsFlagged<C>(r: Ring<C>, b: Ring<C>, flagged: set<C>)
    requires Valid(r) && Elems(b.blocked) == Elems(r.blocked) + Elems(r.runnable) * flagged
    ensures Keep(Cycle(r), flagged) == Keep(Cycle(r), Elems(b.blocked))
  {
    var s := Cycle(r);
    forall i | 0 <= i < |s| ensures s[i] in flagged <==> s[i] in Elems(b.blocked) {
      assert s[i] in r.runnable;
      if s[i] in r.blocked { UniqueSplit(r, s[i]); }
    }
    KeepOnlySame(s, flagged, Elems(b.blocked));
  }

  lemma WithoutOne<C>(s: seq<C>, i: nat, others: seq<C>)
    requires i < |s|
    requires Unique(multiset(s) + multiset(others))
    ensures Elems(Without(s, i)) == Elems(s) - {s[i]}
  {
    WithoutBag(s, i);
    forall c ensures c in Without(s, i) <==> c in s && c != s[i] {
      assert c in Without(s, i) <==> c in multiset(Without(s, i));
      assert c in s <==> c in multiset(s);
      if c in s { assert c in multiset(s) + multiset(others); }
    }
  }

  // The children of s that are in the blocked set.
  ghost function Only<C>(s: seq<C>, flagged: set<C>): (k: seq<C>) {
    if s == [] then []
    else if s[0] in flagged then [s[0]] + Only(s[1..], flagged)
    else Only(s[1..], flagged)
  }

  lemma {:induction false} OnlyConcat<C>(a: seq<C>, b: seq<C>, flagged: set<C>)
    ensures Only(a + b, flagged) == Only(a, flagged) + Only(b, flagged)
  {
    if a == [] {
      assert a + b == b;
    } else {
      assert (a + b)[1..] == a[1..] + b;
      OnlyConcat(a[1..], b, flagged);
    }
  }

  lemma {:induction false} KeepOnlyPartition<C>(s: seq<C>, flagged: set<C>)
    ensures multiset(Keep(s, flagged)) + multiset(Only(s, flagged)) == multiset(s)
    ensures Elems(Keep(s, flagged)) == Elems(s) - flagged
    ensures Elems(Only(s, flagged)) == Elems(s) * flagged
  {
    if s != [] {
      KeepOnlyPartition(s[1..], flagged);
      assert s == [s[0]] + s[1..];
      ElemsCons(s[0], s[1..]);
      ElemsCons(s[0], Keep(s[1..], flagged));
      ElemsCons(s[0], Only(s[1..], flagged));
    }
  }

  lemma {:induction false} KeepOnlySame<C>(s: seq<C>, f: set<C>, g: set<C>)
    requires forall i :: 0 <= i < |s| ==> (s[i] in f <==> s[i] in g)
    ensures Keep(s, f) == Keep(s, g) && Only(s, f) == Only(s, g)
  {
    if s != [] {
      KeepOnlySame(s[1..], f, g);
    }
  }

  // UnblockTowardsRoot: children found unblocked join at the end of the vector.
  method Unblock<C>(r: Ring<C>, flagged: set<C>) returns (u: Ring<C>)
    requires Valid(r)
    ensures Valid(u) && Members(u) == Members(r)
    ensures u == Ring(r.next, r.runnable + Keep(r.blocked, flagged), Only(r.blocked, flagged))
    ensures u.runnable == r.runnable + Keep(r.blocked, Elems(u.blocked)) && u.blocked == Only(r.blocked, Elems(u.blocked))
    ensures Elems(u.runnable) == Elems(r.runnable) + (Elems(r.blocked) - flagged)
    ensures Elems(u.blocked) == Elems(r.blocked) * flagged
  {
    u := r.(blocked := []);
    for i := 0 to |r.blocked|
      invariant u == Ring(r.next, r.runnable + Keep(r.blocked[..i], flagged), Only(r.blocked[..i], flagged))
    {
      var c := r.blocked[i];
      assert r.blocked[..i + 1] == r.blocked[..i] + [c];
      KeepConcat(r.blocked[..i], [c], flagged);
      OnlyConcat(r.blocked[..i], [c], flagged);
      if c !in flagged {
        u := u.(runnable := u.runnable + [c]);
      } else {
        u := u.(blocked := u.blocked + [c]);
      }
    }
    assert r.blocked[..|r.blocked|] == r.blocked;
    KeepOnlyPartition(r.blocked, flagged);
    assert multiset(u.runnable) == multiset(r.runnable) + multiset(Keep(r.blocked, flagged));
    assert Members(u) == Members(r);
    assert Elems(u.runnable) == Elems(r.runnable) + Elems(Keep(r.blocked, flagged));
    forall i | 0 <= i < |r.blocked| ensures r.blocked[i] in flagged <==> r.blocked[i] in Elems(u.blocked) {
      assert r.blocked[i] in Elems(r.blocked);
    }
    KeepOnlySame(r.blocked, flagged, Elems(u.blocked));
  }

  // m is r without child, in the same cyclic order.
  ghost predicate Removed<C>(r: Ring<C>, m: Ring<C>, child: C)
    requires Valid(r)
  {
    && Valid(m) && Members(m) == Members(r) - multiset{child}
    && Elems(m.runnable) == Elems(r.runnable) - {child}
    && Elems(m.blocked) == Elems(r.blocked) - {child}
    && (child !in r.runnable ==>
          && m.runnable == r.runnable && m.next == r.next
          && exists j :: 0 <= j < |r.blocked| && r.blocked[j] == child && m.blocked == Without(r.blocked, j))
    && (child in r.runnable ==> m.blocked == r.blocked)
    && (child !in r.runnable ==> Cycle(m) == Cycle(r))
    && (child in r.runnable ==>
          exists p :: 0 <= p < |Cycle(r)| && Cycle(r)[p] == child && Cycle(m) == Without(Cycle(r), p))
  }

  lemma RemovedBlocked<C>(r: Ring<C>, i: nat)
    requires Valid(r) && i < |r.blocked|
    ensures Removed(r, r.(blocked := Without(r.blocked, i)), r.blocked[i])
    ensures r.blocked[i] !in r.runnable
  {
    var m := r.(blocked := Without(r.blocked, i));
    WithoutBag(r.blocked, i);
    UniqueSplit(r, r.blocked[i]);
    assert multiset(r.blocked) + multiset(r.runnable) == Members(r);
    WithoutOne(r.blocked, i, r.runnable);
    assert Members(m) == Members(r) - multiset{r.blocked[i]};
    UniqueSub(Members(r), Members(m));
  }

  lemma RemovedRunnable<C>(r: Ring<C>, i: nat)
    requires Valid(r) && i < |r.runnable|
    ensures Removed(r, Erase(r, i), r.runnable[i])
  {
    var m := Erase(r, i);
    WithoutBag(r.runnable, i);
    WithoutOne(r.runnable, i, r.blocked);
    assert Members(m) == Members(r) - multiset{r.runnable[i]};
    UniqueSub(Members(r), Members(m));
    EraseCycle(r, i);
    var p := CyclePos(r, i);
    assert Cycle(r)[p] == r.runnable[i];
    if r.runnable[i] in r.blocked { UniqueSplit(r, r.runnable[i]); }
  }

  // RemoveChild on the two lists.
  method Remove<C(==)>(r: Ring<C>, child: C) returns (m: Ring<C>, wasRunnable: bool)
    requires Valid(r) && (child in r.runnable || child in r.blocked)
    ensures Removed(r, m, child)
    ensures wasRunnable <==> child in r.runnable
  {
    for i := 0 to |r.blocked|
      invariant child !in r.blocked[..i]
    {
      if r.blocked[i] == child {
        RemovedBlocked(r, i);
        return r.(blocked := Without(r.blocked, i)), false;
      }
    }
    assert r.blocked[..|r.blocked|] == r.blocked;
    var i := 0;
    while r.runnable[i] != child
      invariant i < |r.runnable| && child !in r.runnable[..i]
      decreases |r.runnable| - i
    {
      i := i + 1;
    }
    RemovedRunnable(r, i);
    m, wasRunnable := Erase(r, i), true;
  }

  lemma UniqueSub<C>(m: multiset<C>, sub: multiset<C>)
    requires Unique(m) && sub <= m
    ensures Unique(sub)
  {
    forall c | c in sub ensures sub[c] == 1 {
      assert c in m;
    }
  }

  lemma UniqueSplit<C>(r: Ring<C>, c: C)
    requires Unique(Members(r)) && c in r.blocked
    ensures c !in r.runnable
  {
    assert c in Members(r);
    assert multiset(r.blocked)[c] > 0 && (c in r.runnable <==> multiset(r.runnable)[c] > 0);
  }

  // AddChild on the two lists.
  function Add<C>(r: Ring<C>, c: C, isBlocked: bool): (a: Ring<C>) {
    if isBlocked then r.(blocked := r.blocked + [c]) else r.(runnable := r.runnable + [c])
  }

  lemma AddKeeps<C>(r: Ring<C>, c: C, isBlocked: bool)
    requires Valid(r) && c !in Elems(r.runnable) + Elems(r.blocked)
    ensures var a := Add(r, c, isBlocked);
      && Valid(a) && Members(a) == Members(r) + multiset{c}
      && Elems(a.runnable) == Elems(r.runnable) + (if isBlocked then {} else {c})
      && Elems(a.blocked) == Elems(r.blocked) + (if isBlocked then {c} else {})
  {
    var a := Add(r, c, isBlocked);
    assert c !in Members(r);
    assert multiset(r.blocked + [c]) == multiset(r.blocked) + multiset{c};
    assert multiset(r.runnable + [c]) == multiset(r.runnable) + multiset{c};
    assert Members(a) == Members(r) + multiset{c};
    assert Elems(r.blocked + [c]) == Elems(r.blocked) + {c};
    assert Elems(r.runnable + [c]) == Elems(r.runnable) + {c};
  }

  // FinishAndAccountTowardsRoot on the lists: a child that came back blocked is
  // erased where next_child_ points, otherwise next_child_ moves by the count.
  function Finish<C>(r: Ring<C>, child: C, childBlocked: bool, count: nat): (f: Ring<C>)
    requires r.next < |r.runnable|
  {
    var moved := if childBlocked
                 then r.(runnable := Without(r.runnable, r.next), blocked := r.blocked + [child])
                 else r.(next := r.next + count);
    if moved.next >= |moved.runnable| then moved.(next := 0) else moved
  }

  lemma WithoutFirst<C>(s: seq<C>)
    requires s != []
    ensures Without(s, 0) == s[1..]
  {
  }

  lemma FinishBlocked<C>(r: Ring<C>, child: C, count: nat)
    requires Valid(r) && r.next < |r.runnable| && child == r.runnable[r.next]
    ensures var f := Finish(r, child, true, count);
      && Valid(f) && Members(f) == Members(r)
      && Cycle(f) == Cycle(r)[1..]
      && Elems(f.runnable) == Elems(r.runnable) - {child}
      && Elems(f.blocked) == Elems(r.blocked) + {child}
  {
    var f := Finish(r, child, true, count);
    assert f == Erase(r, r.next).(blocked := r.blocked + [child]);
    EraseCycle(r, r.next);
    WithoutFirst(Cycle(r));
    CycleOther(Erase(r, r.next), r.blocked + [child]);
    hide Cycle, Without;
    WithoutOne(r.runnable, r.next, r.blocked);
    WithoutBag(r.runnable, r.next);
    assert multiset(f.runnable) == multiset(r.runnable) - multiset{child};
    assert multiset(f.blocked) == multiset(r.blocked) + multiset{child};
    assert Members(f) == Members(r);
  }

  lemma FinishMoves<C>(r: Ring<C>, child: C, childBlocked: bool, count: nat)
    requires Valid(r) && r.next < |r.runnable| && child == r.runnable[r.next]
    ensures var f := Finish(r, child, childBlocked, count);
            var moved := if childBlocked then {child} else {};
      && Valid(f) && Members(f) == Members(r)
      && Elems(f.runnable) == Elems(r.runnable) - moved
      && Elems(f.blocked) == Elems(r.blocked) + moved
  {
    if childBlocked {
      FinishBlocked(r, child, count);
    }
  }

  // One count per round rotates the cyclic queue by one.
  lemma FinishRotates<C>(r: Ring<C>, child: C)
    requires r.next < |r.runnable|
    ensures var f := Finish(r, child, false, 1);
      && f.runnable == r.runnable && f.blocked == r.blocked && f.next < |f.runnable|
      && Cycle(f) == Cycle(r)[1..] + [Cycle(r)[0]]
  {
  }

  // The children picked in n rounds in which nobody blocks and each round counts one.
  ghost function Picks<C>(r: Ring<C>, n: nat): (p: seq<C>)
    requires r.next < |r.runnable|
    decreases n
  {
    if n == 0 then [] else
      var c := r.runnable[r.next];
      [c] + Picks(Finish(r, c, false, 1), n - 1)
  }

  ghost function After<C>(r: Ring<C>, n: nat): (f: Ring<C>)
    requires r.next < |r.runnable|
    ensures f.runnable == r.runnable && f.blocked == r.blocked && f.next < |f.runnable|
    decreases n
  {
    if n == 0 then r else After(Finish(r, r.runnable[r.next], false, 1), n - 1)
  }

  lemma {:induction false} ModSuccessor(k: nat, n: nat)
    requires n > 0
    ensures (k + 1) % n == if k % n == n - 1 then 0 else k % n + 1
    decreases k
  {
    if k >= n {
      ModSuccessor(k - n, n);
      ModShift(k - n, n);
      ModShift(k - n + 1, n);
    }
  }

  lemma ModShift(k: nat, n: nat)
    requires n > 0
    ensures (k + n) % n == k % n
  {
    var q := k / n;
    assert k == q * n + k % n;
    assert k + n == (q + 1) * n + k % n;
    DivUnique(k + n, n, q + 1, k % n);
  }

  lemma MulMonotone(a: int, b: int, n: nat)
    requires a <= b
    ensures a * n <= b * n
  {
    assert (b - a) * n >= 0;
  }

  lemma DivUnique(x: int, n: nat, q: int, m: nat)
    requires n > 0 && x == q * n + m && m < n
    ensures x % n == m
  {
    var p := x / n;
    assert x == p * n + x % n;
    if p < q {
      MulMonotone(p + 1, q, n);
    } else if p > q {
      MulMonotone(q + 1, p, n);
    }
  }

  // The picks go round the cyclic queue, for any number of rounds.
  lemma {:induction false} PicksFollowCycle<C>(r: Ring<C>, n: nat)
    requires r.next < |r.runnable|
    ensures |Picks(r, n)| == n && forall k :: 0 <= k < n ==> Picks(r, n)[k] == Cycle(r)[k % |r.runnable|]
    decreases n
  {
    if n > 0 {
      var c := r.runnable[r.next];
      var f := Finish(r, c, false, 1);
      FinishRotates(r, c);
      PicksFollowCycle(f, n - 1);
      forall k | 0 < k < n ensures Picks(r, n)[k] == Cycle(r)[k % |r.runnable|] {
        ModSuccessor(k - 1, |r.runnable|);
        assert Picks(r, n)[k] == Picks(f, n - 1)[k - 1];
      }
      assert Cycle(r)[0] == c && 0 % |r.runnable| == 0;
    }
  }

  // With a fixed runnable set, from any round on, the next |runnable| picks
  // serve every runnable child exactly once.
  lemma EveryWindowServesAll<C>(r: Ring<C>, start: nat)
    requires r.next < |r.runnable|
    ensures multiset(Picks(After(r, start), |r.runnable|)) == multiset(r.runnable)
  {
    var f := After(r, start);
    PicksFollowCycle(f, |f.runnable|);
    assert forall k :: 0 <= k < |f.runnable| ==> k % |f.runnable| == k;
    assert Picks(f, |f.runnable|) == Cycle(f);
    assert f.runnable == f.runnable[..f.next] + f.runnable[f.next..];
  }
}
