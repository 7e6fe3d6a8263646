/** The scheduler of one worker: wakes classes whose time has come, descends the
    tree to a leaf, and accounts for the round it ran. */
module Schedulers {
  import opened ExtendedPriorityQueue
  import opened TrafficClasses
  import TB = TokenBucket

  // ---- what blocked_ means ------------------------------------------------

  // Every class from l up to c is awake.
  ghost predicate AwakeUpTo(l: TrafficClass, c: TrafficClass, S: set<TrafficClass>)
    requires Linked(S) && l in S
    reads S`parent, S`kids, S`depth, S`wakeupTime
    decreases l.depth
  {
    l.wakeupTime == 0 && (l == c || (l.parent != null && AwakeUpTo(l.parent, c, S)))
  }

  // Some leaf below c can run: it is awake and no limiter above it is throttled.
  ghost predicate SomeLeafRunnable(c: TrafficClass, S: set<TrafficClass>)
    requires Linked(S)
    reads S`parent, S`kids, S`depth, S`wakeupTime, S`st
  {
    exists l :: l in S && l.st.Leaf? && AwakeUpTo(l, c, S)
  }

  lemma {:induction false} AwakePathIsOpen(x: TrafficClass, c: TrafficClass, S: set<TrafficClass>)
    requires TreeOk(S) && x in S && !x.blocked && AwakeUpTo(x, c, S)
    ensures !c.blocked
    decreases x.depth
  {
    if x != c {
      var p := x.parent;
      assert p.FlagOk();
      var i :| 0 <= i < |p.kids| && p.kids[i] == x;
      assert p.HasOpenKid() && !p.st.Leaf?;
      AwakePathIsOpen(p, c, S);
    }
  }

  lemma {:induction false} AwakeExtend(l: TrafficClass, k: TrafficClass, S: set<TrafficClass>)
    requires Linked(S) && l in S && AwakeUpTo(l, k, S) && k in S && k.parent != null && k.parent.wakeupTime == 0
    ensures AwakeUpTo(l, k.parent, S)
    decreases l.depth
  {
    if l != k {
      AwakeExtend(l.parent, k, S);
    }
  }

  ghost function Deeper(c: TrafficClass, S: set<TrafficClass>): set<TrafficClass>
    reads S`depth, c`depth
  {
    set d | d in S && d.depth > c.depth
  }

  lemma {:induction false} OpenHasLeaf(c: TrafficClass, S: set<TrafficClass>) returns (l: TrafficClass)
    requires TreeOk(S) && c in S && !c.blocked
    ensures l in S && l.st.Leaf? && AwakeUpTo(l, c, S)
    decreases Deeper(c, S)
  {
    assert c.FlagOk();
    if c.st.Leaf? {
      return c;
    }
    var i :| 0 <= i < |c.kids| && !c.kids[i].blocked;
    var k := c.kids[i];
    assert k.LinksOk(S);
    assert k in Deeper(c, S) && k !in Deeper(k, S);
    l := OpenHasLeaf(k, S);
    AwakeExtend(l, k, S);
  }

  // The flag kept at every class means exactly that nothing below can run.
  lemma BlockedMeansNothingRunnable(c: TrafficClass, S: set<TrafficClass>)
    requires TreeOk(S) && c in S
    ensures c.blocked <==> !SomeLeafRunnable(c, S)
  {
    if !c.blocked {
      var l := OpenHasLeaf(c, S);
    }
    forall l | l in S && l.st.Leaf? && AwakeUpTo(l, c, S) ensures !c.blocked {
      assert l.FlagOk();
      AwakePathIsOpen(l, c, S);
    }
  }

  // log lists, earliest first, each class that was to wake before tsc exactly
  // once, as far as it has been woken; everything still queued is later.
  ghost predicate WakeLog(log: seq<Entry<TrafficClass>>, was: map<TrafficClass, nat>, now: map<TrafficClass, nat>,
                          q: seq<Entry<TrafficClass>>, tsc: nat)
  {
    && now.Keys == was.Keys
    && (forall c :: c in was ==> now[c] == was[c] || (now[c] == 0 && was[c] < tsc))
    && (forall i :: 0 <= i < |log| ==> log[i].val in was && log[i].key == was[log[i].val] && 0 < log[i].key < tsc)
    && (forall c :: c in was && was[c] != 0 ==> multiset(log)[Entry(was[c], c)] == if now[c] == 0 then 1 else 0)
    && (forall i, j :: 0 <= i < j < |log| ==> log[i].key <= log[j].key)
    && (forall i, j :: 0 <= i < |log| && 0 <= j < |q| ==> log[i].key <= q[j].key)
  }

  lemma WakeLogEmpty(was: map<TrafficClass, nat>, q: seq<Entry<TrafficClass>>, tsc: nat)
    ensures WakeLog([], was, was, q, tsc)
  {
  }

  lemma WakeLogStep(log: seq<Entry<TrafficClass>>, was: map<TrafficClass, nat>, now: map<TrafficClass, nat>,
                    q: seq<Entry<TrafficClass>>, rest: seq<Entry<TrafficClass>>, tsc: nat)
    requires WakeLog(log, was, now, q, tsc) && IsHeap(q) && q != [] && 0 < q[0].key < tsc
    requires q[0].val in now && now[q[0].val] == q[0].key
    requires multiset(rest) == multiset(q) - multiset{q[0]}
    ensures WakeLog(log + [q[0]], was, now[q[0].val := 0], rest, tsc)
  {
    var top := q[0];
    forall j | 0 <= j < |rest| ensures top.key <= rest[j].key && forall i :: 0 <= i < |log| ==> log[i].key <= rest[j].key {
      assert rest[j] in multiset(rest);
      assert rest[j] in multiset(q);
      var k :| 0 <= k < |q| && q[k] == rest[j];
      TopIsMinimum(q, k);
    }
    assert multiset(log + [top]) == multiset(log) + multiset{top};
  }

  lemma WakeLogTimes(log: seq<Entry<TrafficClass>>, was: map<TrafficClass, nat>, now: map<TrafficClass, nat>,
                     q: seq<Entry<TrafficClass>>, tsc: nat)
    requires WakeLog(log, was, now, q, tsc)
    requires forall c :: c in now ==> now[c] == 0 || now[c] >= tsc
    ensures forall c :: c in was ==> now[c] == if was[c] < tsc then 0 else was[c]
  {
  }

  // Each class got from its state in p to its state in q by waking.
  ghost predicate Trails(trails: map<TrafficClass, seq<Policy>>, p: map<TrafficClass, Policy>, q: map<TrafficClass, Policy>) {
    trails.Keys == p.Keys == q.Keys && forall c :: c in trails ==> Trail(trails[c], p[c], q[c])
  }

  ghost function Joined(t: map<TrafficClass, seq<Policy>>, u: map<TrafficClass, seq<Policy>>): map<TrafficClass, seq<Policy>> {
    map c | c in t :: if c in u && u[c] != [] then t[c] + u[c][1..] else t[c]
  }

  lemma TrailsStart(p: map<TrafficClass, Policy>, trails: map<TrafficClass, seq<Policy>>)
    requires trails.Keys == p.Keys && forall c :: c in p ==> trails[c] == [p[c]]
    ensures Trails(trails, p, p)
  {
    forall c | c in p ensures Trail(trails[c], p[c], p[c]) { TrailStay(p[c]); }
  }

  lemma TrailsJoin(t: map<TrafficClass, seq<Policy>>, u: map<TrafficClass, seq<Policy>>, p: map<TrafficClass, Policy>,
                   q: map<TrafficClass, Policy>, o: map<TrafficClass, Policy>)
    requires Trails(t, p, q) && o.Keys == q.Keys
    requires forall c :: c in q ==> if c in u then Trail(u[c], q[c], o[c]) else o[c] == q[c]
    ensures Trails(Joined(t, u), p, o)
  {
    hide Trail;
    forall c | c in p ensures Trail(Joined(t, u)[c], p[c], o[c]) {
      if c in u {
        TrailNonempty(u[c], q[c], o[c]);
        TrailJoin(t[c], u[c], p[c], q[c], o[c]);
      }
    }
  }

  // What a rate limit did, as events of its token bucket.
  ghost predicate LimitRun(p: Policy, w: nat, evs: seq<TB.Event>, q: Policy, x: nat) {
    p.RateLimit? ==>
      q.RateLimit? && q.limited == p.limited && TB.Final(TB.Limiter(p.bucket, w), evs) == TB.Limiter(q.bucket, x)
  }

  // No class below c sleeps.
  ghost predicate Undisturbed(c: TrafficClass, w: map<TrafficClass, nat>, S: set<TrafficClass>)
    requires Linked(S)
    reads S`parent, S`kids, S`depth
  {
    forall d :: d in S && Above(c, d, S) ==> d in w && w[d] == 0
  }

  // How the classes were woken: the steps of each, the events of the token
  // bucket of each rate limit, and all states and wakeup times afterwards.
  datatype Waking = Waking(trails: map<TrafficClass, seq<Policy>>, evs: map<TrafficClass, seq<TB.Event>>,
                           woken: map<TrafficClass, Policy>, slept: map<TrafficClass, nat>)

  ghost predicate Limits(k: Waking, p: map<TrafficClass, Policy>, w: map<TrafficClass, nat>) {
    && k.evs.Keys == p.Keys == w.Keys == k.woken.Keys == k.slept.Keys
    && (forall c :: c in p ==> LimitRun(p[c], w[c], k.evs[c], k.woken[c], k.slept[c]))
    && (forall c :: c in p ==> k.slept[c] == w[c] || k.slept[c] == 0)
  }

  // A class below which nobody slept is touched by its own wakeup only.
  ghost predicate OwnWakes(k: Waking, w: map<TrafficClass, nat>, S: set<TrafficClass>)
    requires Linked(S) && k.evs.Keys == w.Keys == k.slept.Keys == S
    reads S`parent, S`kids, S`depth
  {
    forall c :: c in S && Undisturbed(c, w, S) ==> k.evs[c] == if w[c] != 0 && k.slept[c] == 0 then [TB.Woke] else []
  }

  ghost predicate Awoken(k: Waking, p: map<TrafficClass, Policy>, w: map<TrafficClass, nat>, S: set<TrafficClass>)
    reads S`parent, S`kids, S`depth
  {
    Linked(S) && p.Keys == S && Trails(k.trails, p, k.woken) && Limits(k, p, w) && OwnWakes(k, w, S)
  }

  lemma AwokenStart(p: map<TrafficClass, Policy>, w: map<TrafficClass, nat>, S: set<TrafficClass>) returns (k: Waking)
    requires Linked(S) && p.Keys == w.Keys == S
    ensures Awoken(k, p, w, S) && k.woken == p && k.slept == w
  {
    k := Waking(map c | c in S :: [p[c]], map c | c in S :: [], p, w);
    TrailsStart(p, k.trails);
  }

  // Class top.val woke at its time, and perhaps classes above it.
  ghost function MoreEvents(evs: map<TrafficClass, seq<TB.Event>>, tr: map<TrafficClass, seq<Policy>>, top: Entry<TrafficClass>):
    map<TrafficClass, seq<TB.Event>>
    requires top.key >= 0
  {
    map c | c in evs :: evs[c] + (if c == top.val then [TB.Woke] else if c in tr then [TB.Resumed(top.key)] else [])
  }

  ghost predicate WokeUp(p: map<TrafficClass, Policy>, q: map<TrafficClass, Policy>, tr: map<TrafficClass, seq<Policy>>,
                         top: Entry<TrafficClass>, S: set<TrafficClass>)
    requires Linked(S)
    reads S`parent, S`kids, S`depth
  {
    && p.Keys == q.Keys == S && top.key > 0 && top.val in S && top.val in tr
    && (forall c :: c in S ==> if c in tr then Woke(p[c], q[c], top.key) && Trail(tr[c], p[c], q[c]) else q[c] == p[c])
    && (forall c :: c in tr ==> c == top.val || Above(c, top.val, S))
  }

  lemma LimitsStep(k: Waking, p: map<TrafficClass, Policy>, w: map<TrafficClass, nat>, q: map<TrafficClass, Policy>,
                   tr: map<TrafficClass, seq<Policy>>, top: Entry<TrafficClass>, S: set<TrafficClass>, t: map<TrafficClass, seq<Policy>>)
    requires Linked(S) && Limits(k, p, w) && WokeUp(k.woken, q, tr, top, S) && k.slept[top.val] == top.key
    ensures Limits(Waking(t, MoreEvents(k.evs, tr, top), q, k.slept[top.val := 0]), p, w)
  {
    hide Trail, Above;
    var evs := MoreEvents(k.evs, tr, top);
    forall c | c in p ensures LimitRun(p[c], w[c], evs[c], q[c], k.slept[top.val := 0][c]) {
      assert LimitRun(p[c], w[c], k.evs[c], k.woken[c], k.slept[c]);
      if p[c].RateLimit? { TB.FinalJoins(TB.Limiter(p[c].bucket, w[c]), k.evs[c], evs[c][|k.evs[c]|..]); }
    }
  }

  lemma NotBelow(c: TrafficClass, w: map<TrafficClass, nat>, tr: map<TrafficClass, seq<Policy>>, top: Entry<TrafficClass>,
                 S: set<TrafficClass>)
    requires Linked(S) && c in S && Undisturbed(c, w, S) && c in tr && top.val in S && top.val in w && w[top.val] != 0
    requires forall d :: d in tr ==> d == top.val || Above(d, top.val, S)
    ensures c == top.val
  {
  }

  lemma OwnWakesStep(k: Waking, p: map<TrafficClass, Policy>, w: map<TrafficClass, nat>, q: map<TrafficClass, Policy>,
                     tr: map<TrafficClass, seq<Policy>>, top: Entry<TrafficClass>, S: set<TrafficClass>, t: map<TrafficClass, seq<Policy>>)
    requires Linked(S) && p.Keys == S && Limits(k, p, w) && OwnWakes(k, w, S)
    requires WokeUp(k.woken, q, tr, top, S) && k.slept[top.val] == top.key
    ensures OwnWakes(Waking(t, MoreEvents(k.evs, tr, top), q, k.slept[top.val := 0]), w, S)
  {
    hide Trail, Above, Woke, LimitRun, Linked, Undisturbed;
    assert w[top.val] == top.key;
    var evs := MoreEvents(k.evs, tr, top);
    forall c | c in S && Undisturbed(c, w, S)
      ensures evs[c] == if w[c] != 0 && k.slept[top.val := 0][c] == 0 then [TB.Woke] else []
    {
      if c in tr { NotBelow(c, w, tr, top, S); }
    }
  }

  lemma AwokenStep(k: Waking, p: map<TrafficClass, Policy>, w: map<TrafficClass, nat>, q: map<TrafficClass, Policy>,
                   tr: map<TrafficClass, seq<Policy>>, top: Entry<TrafficClass>, S: set<TrafficClass>)
    requires Awoken(k, p, w, S) && WokeUp(k.woken, q, tr, top, S) && top.val in k.slept && k.slept[top.val] == top.key
    ensures Awoken(Waking(Joined(k.trails, tr), MoreEvents(k.evs, tr, top), q, k.slept[top.val := 0]), p, w, S)
  {
    var t := Joined(k.trails, tr);
    LimitsStep(k, p, w, q, tr, top, S, t);
    OwnWakesStep(k, p, w, q, tr, top, S, t);
    hide Limits, OwnWakes, Trail, Above, Woke;
    TrailsJoin(k.trails, tr, p, k.woken, q);
  }

  lemma TrailNonempty(t: seq<Policy>, p: Policy, q: Policy)
    requires Trail(t, p, q)
    ensures t != [] && t[0] == p && t[|t| - 1] == q
  {
  }

  // ---- usage accounting ---------------------------------------------------

  ghost function Total(kids: seq<TrafficClass>, m: map<TrafficClass, Usage>): Usage
    requires forall i :: 0 <= i < |kids| ==> kids[i] in m
  {
    if kids == [] then NO_USAGE else m[kids[0]].Plus(Total(kids[1..], m))
  }

  ghost predicate ConservedIn(m: map<TrafficClass, Usage>, S: set<TrafficClass>)
    requires Linked(S) && m.Keys == S
    reads S`kids, S`parent, S`depth
  {
    forall c :: c in S && c.kids != [] ==> m[c] == Total(c.kids, m)
  }

  // The classes on the path were charged u, and no others.
  ghost predicate ChargedAlong(m: map<TrafficClass, Usage>, n: map<TrafficClass, Usage>, path: seq<TrafficClass>, u: Usage)
  {
    n.Keys == m.Keys && forall c :: c in m ==> n[c] == if c in path then m[c].Plus(u) else m[c]
  }

  // What a round is charged: a task that asks to be put to sleep and got no packet is free.
  function Bill(block: bool, packets: nat, bits: nat, cycles: nat): Usage {
    if packets == 0 && block then NO_USAGE else Usage(1, cycles, packets, bits)
  }

  lemma Billed(m: map<TrafficClass, Usage>, n: map<TrafficClass, Usage>, path: seq<TrafficClass>, block: bool, packets: nat,
               bits: nat, cycles: nat)
    requires ChargedAlong(m, n, path, Bill(block, packets, bits, cycles))
    ensures if packets == 0 && block then n == m else ChargedAlong(m, n, path, Usage(1, cycles, packets, bits))
  {
    if packets == 0 && block {
      forall c | c in m ensures n[c] == m[c] {}
    }
  }

  lemma NoneCharged(m: map<TrafficClass, Usage>, u: Usage)
    ensures ChargedAlong(m, m, [], u)
  {
  }

  lemma {:induction false} TotalZero(kids: seq<TrafficClass>, m: map<TrafficClass, Usage>)
    requires forall i :: 0 <= i < |kids| ==> kids[i] in m
    requires forall i :: 0 <= i < |kids| ==> m[kids[i]] == NO_USAGE
    ensures Total(kids, m) == NO_USAGE
  {
    if kids != [] {
      var rest := kids[1..];
      assert forall i :: 0 <= i < |rest| ==> m[rest[i]] == NO_USAGE by {
        assert forall i :: 0 <= i < |rest| ==> rest[i] == kids[i + 1];
      }
      TotalZero(rest, m);
    }
  }

  lemma {:induction false} TotalSame(kids: seq<TrafficClass>, m: map<TrafficClass, Usage>, n: map<TrafficClass, Usage>)
    requires forall i :: 0 <= i < |kids| ==> kids[i] in m && kids[i] in n && n[kids[i]] == m[kids[i]]
    ensures Total(kids, n) == Total(kids, m)
  {
    if kids != [] {
      TotalSame(kids[1..], m, n);
    }
  }

  lemma {:induction false} TotalPlusOne(kids: seq<TrafficClass>, i: nat, u: Usage, m: map<TrafficClass, Usage>,
                                        n: map<TrafficClass, Usage>)
    requires i < |kids| && forall j :: 0 <= j < |kids| ==> kids[j] in m && kids[j] in n
    requires forall j :: 0 <= j < |kids| ==> n[kids[j]] == if j == i then m[kids[j]].Plus(u) else m[kids[j]]
    ensures Total(kids, n) == Total(kids, m).Plus(u)
  {
    if i == 0 {
      TotalSame(kids[1..], m, n);
    } else {
      TotalPlusOne(kids[1..], i - 1, u, m, n);
    }
  }

  // A class on the path below a given parent stands right under it.
  lemma OnPathUnder(k: TrafficClass, path: seq<TrafficClass>)
    requires Path(path) && k in path && k.parent != null
    ensures exists j :: 0 < j < |path| && path[j] == k && path[j - 1] == k.parent
  {
    var j :| 0 <= j < |path| && path[j] == k;
    PathUp(path, j);
  }

  lemma ChargeAlongConserves(m: map<TrafficClass, Usage>, n: map<TrafficClass, Usage>, path: seq<TrafficClass>, u: Usage,
                             S: set<TrafficClass>)
    requires Linked(S) && m.Keys == S && Path(path) && path[|path| - 1].kids == []
    requires forall j :: 0 <= j < |path| ==> path[j] in S
    requires ChargedAlong(m, n, path, u) && ConservedIn(m, S)
    ensures ConservedIn(n, S)
  {
    forall c | c in S && c.kids != [] ensures n[c] == Total(c.kids, n) {
      if c in path {
        var j :| 0 <= j < |path| && path[j] == c;
        PathUp(path, j + 1);
        var i :| 0 <= i < |c.kids| && c.kids[i] == path[j + 1];
        forall t | 0 <= t < |c.kids| ensures c.kids[t] in path <==> t == i {
          if c.kids[t] in path { OnPathUnder(c.kids[t], path); }
        }
        TotalPlusOne(c.kids, i, u, m, n);
      } else {
        forall t | 0 <= t < |c.kids| ensures c.kids[t] !in path {
          if c.kids[t] in path { OnPathUnder(c.kids[t], path); }
        }
        TotalSame(c.kids, m, n);
      }
    }
  }

  // ---- the scheduler -------------------------------------------------------

  class Scheduler {
    var root: TrafficClass?
    var wakeupQueue: SchedWakeupQueue
    var checkpoint: nat
    var cntIdle: nat
    var cyclesIdle: nat
    ghost var S: set<TrafficClass>

    ghost predicate Valid()
      reads this`root, this`wakeupQueue, this`S, wakeupQueue, S
    {
      && TreeOk(S) && Queued(wakeupQueue.q, S)
      && (root != null ==> root in S && root.parent == null)
    }

    constructor ()
      ensures Valid() && fresh(wakeupQueue) && root == null && S == {}
    {
      root, checkpoint, cntIdle, cyclesIdle, S := null, 0, 0, 0, {};
      wakeupQueue := new SchedWakeupQueue();
    }

    // TrafficClassBuilder::CreateTrafficClass: a new class, attached to nothing.
    method Create(policy: Policy) returns (c: TrafficClass)
      requires Valid() && ListsOk(policy, [])
      modifies this`S
      ensures Valid() && fresh(c) && S == old(S) + {c} && c.parent == null && c.st == policy && c.usage == NO_USAGE
    {
      c := new TrafficClass(policy);
      assert forall d :: d in S ==> d.LinksOk(S) && d.FlagOk();
      S := S + {c};
    }

    ghost function Policies(): (m: map<TrafficClass, Policy>)
      reads this`S, S`st
      ensures m.Keys == S
    {
      map c | c in S :: c.st
    }

    ghost function WakeupTimes(): (m: map<TrafficClass, nat>)
      reads this`S, S`wakeupTime
      ensures m.Keys == S
    {
      map c | c in S :: c.wakeupTime
    }

    // Wakes the classes whose time is before tsc, earliest first, and no others.
    method WakeTCs(tsc: nat) returns (ghost log: seq<Entry<TrafficClass>>, ghost k: Waking)
      requires Valid()
      modifies wakeupQueue, S`wakeupTime, S`st, S`blocked
      ensures Valid()
      ensures forall c :: c in S ==> c.wakeupTime == if old(c.wakeupTime) < tsc then 0 else old(c.wakeupTime)
      ensures WakeLog(log, old(WakeupTimes()), WakeupTimes(), wakeupQueue.q, tsc)
      ensures Awoken(k, old(Policies()), old(WakeupTimes()), S) && k.woken == Policies() && k.slept == WakeupTimes()
    {
      hide Valid, WakeLog, Awoken, WokeUp, MoreEvents, Joined, Linked, Policies;
      ghost var first, was := Policies(), WakeupTimes();
      ValidLinked();
      k := AwokenStart(first, was, S);
      log := [];
      assert WakeLog(log, was, WakeupTimes(), wakeupQueue.q, tsc) by { WakeLogEmpty(was, wakeupQueue.q, tsc); }
      while wakeupQueue.q != [] && wakeupQueue.q[0].key < tsc
        invariant Valid() && WakeLog(log, was, WakeupTimes(), wakeupQueue.q, tsc)
        invariant Awoken(k, first, was, S) && k.woken == Policies() && k.slept == WakeupTimes()
        decreases |wakeupQueue.q|
      {
        ghost var q, now, top := wakeupQueue.q, WakeupTimes(), wakeupQueue.q[0];
        TopFacts();
        ghost var tr := WakeOne();
        AwokenStep(k, first, was, Policies(), tr, top, S);
        k := Waking(Joined(k.trails, tr), MoreEvents(k.evs, tr, top), Policies(), now[top.val := 0]);
        assert WakeupTimes() == now[top.val := 0];
        WakeLogStep(log, was, now, q, wakeupQueue.q, tsc);
        log := log + [top];
      }
      LateSleepers(tsc);
      WakeLogTimes(log, was, WakeupTimes(), wakeupQueue.q, tsc);
    }

    lemma TopFacts()
      requires Valid() && wakeupQueue.q != []
      ensures var top := wakeupQueue.q[0];
        IsHeap(wakeupQueue.q) && top.val in S && top.key == top.val.wakeupTime != 0
    {
      assert wakeupQueue.q[0] in wakeupQueue.q;
    }

    lemma LateSleepers(tsc: nat)
      requires Valid() && (wakeupQueue.q == [] || wakeupQueue.q[0].key >= tsc)
      ensures forall c :: c in S ==> c.wakeupTime == 0 || c.wakeupTime >= tsc
    {
      var q := wakeupQueue.q;
      forall c | c in S && c.wakeupTime != 0 ensures c.wakeupTime >= tsc {
        assert Entry(c.wakeupTime, c) in multiset(q);
        TopIsMinimumOf(q, Entry(c.wakeupTime, c));
      }
    }

    // Takes the first sleeper off the queue and wakes it.
    method WakeOne() returns (ghost tr: map<TrafficClass, seq<Policy>>)
      requires Valid() && wakeupQueue.q != []
      modifies wakeupQueue, S`wakeupTime, S`st, S`blocked
      ensures Valid() && Linked(S)
      ensures |wakeupQueue.q| == old(|wakeupQueue.q|) - 1
      ensures multiset(wakeupQueue.q) == old(multiset(wakeupQueue.q) - multiset{wakeupQueue.q[0]})
      ensures old(wakeupQueue.q[0].val).wakeupTime == 0
      ensures forall c :: c in S && c != old(wakeupQueue.q[0].val) ==> c.wakeupTime == old(c.wakeupTime)
      ensures WokeUp(old(Policies()), Policies(), tr, old(wakeupQueue.q[0]), S)
    {
      hide Trail, Woke, Above, Queued, Linked, FlaggedBut, TrafficClass.BeforeUnblock, IsHeap;
      TopFacts();
      var c := wakeupQueue.q[0].val;
      var wakeupTime := c.wakeupTime;
      Dequeue(c);
      tr := c.UnblockTowardsRoot(wakeupTime, S);
    }

    method Dequeue(c: TrafficClass)
      requires Valid() && wakeupQueue.q != [] && c == wakeupQueue.q[0].val
      modifies wakeupQueue, c`wakeupTime
      ensures Linked(S) && c in S && FlaggedBut(S, c) && c.BeforeUnblock() && Queued(wakeupQueue.q, S)
      ensures |wakeupQueue.q| == old(|wakeupQueue.q|) - 1
      ensures multiset(wakeupQueue.q) == old(multiset(wakeupQueue.q) - multiset{wakeupQueue.q[0]})
      ensures c.wakeupTime == 0
    {
      hide TrafficClass.LinksOk;
      ghost var q := wakeupQueue.q;
      assert q[0] in q && c.FlagOk();
      wakeupQueue.q := Pop(wakeupQueue.q);
      c.wakeupTime := 0;
      var rest := wakeupQueue.q;
      forall e | e in rest ensures e.val in S && e.key == e.val.wakeupTime && e.key != 0 {
        assert e in multiset(rest);
        assert e in multiset(q) && e in q;
        assert multiset(q)[q[0]] == 1;
      }
    }
  
    // Walks from an unblocked class down to a leaf, always to the picked child.
    method Descend() returns (leaf: TrafficClass, ghost path: seq<TrafficClass>)
      requires TreeOk(S) && root != null && root in S && root.parent == null && !root.blocked
      ensures Descent(path, S) && path != [] && path[0] == root && path[|path| - 1] == leaf
      ensures leaf in S && leaf.st.Leaf? && !leaf.blocked
    {
      hide TrafficClass.Picked, TrafficClass.FlagOk;
      var c: TrafficClass := root;
      path := [c];
      while !c.st.Leaf?
        invariant Descent(path, S) && path[0] == root && path[|path| - 1] == c && c in S && !c.blocked
        decreases Deeper(c, S)
      {
        assert c.FlagOk();
        var k := c.PickNextChild();
        DescentStep(path, k, S);
        path := path + [k];
        c := k;
      }
      leaf := c;
    }

    // Selects the next leaf to run, if any can.
    method Next(tsc: nat)
        returns (leaf: TrafficClass?, ghost path: seq<TrafficClass>, ghost k: Waking)
      requires Valid()
      modifies wakeupQueue, S`wakeupTime, S`st, S`blocked
      ensures Valid()
      ensures forall c :: c in S ==> c.wakeupTime == if old(c.wakeupTime) < tsc then 0 else old(c.wakeupTime)
      ensures leaf == null <==> root == null || !SomeLeafRunnable(root, S)
      ensures leaf != null ==> Descent(path, S) && path != [] && path[0] == root && path[|path| - 1] == leaf
      ensures leaf != null ==> leaf in S && leaf.st.Leaf? && !leaf.blocked
      ensures leaf != null ==> forall j :: 0 <= j < |path| ==> path[j].wakeupTime == 0
      ensures Awoken(k, old(Policies()), old(WakeupTimes()), S) && k.woken == Policies() && k.slept == WakeupTimes()
      ensures Usages() == old(Usages()) && (old(Conserved()) ==> Conserved())
    {
      hide Queued, Linked, FlaggedBut, WakeLog, Descent, Awoken, ConservedIn, SomeLeafRunnable, Policies;
      ghost var log;
      log, k := WakeTCs(tsc);
      path := [];
      if root != null {
        BlockedMeansNothingRunnable(root, S);
      }
      if root == null || root.blocked {
        return null, path, k;
      }
      leaf, path := Descend();
      DescentAwake(path, S);
    }
  
    // Ready for the climb that accounts for the leaf at the end of path, which
    // may just have gone to sleep.
    ghost predicate Settling(leaf: TrafficClass, path: seq<TrafficClass>)
      reads this`root, this`wakeupQueue, this`S, wakeupQueue, S, path, leaf, leaf.parent, if leaf.parent == null then [] else leaf.parent.kids
    {
      && Linked(S) && Queued(wakeupQueue.q, S) && (root != null ==> root in S && root.parent == null)
      && path != [] && Path(path) && path[|path| - 1] == leaf && leaf.kids == []
      && (forall j :: 0 <= j < |path| ==> path[j] in S)
      && (forall j :: 0 <= j < |path| - 1 ==> path[j].Picked(path[j + 1]) && !path[j].blocked)
      && FlaggedBut(S, leaf.parent) && (leaf.parent != null ==> leaf.parent.BeforeFinish(leaf))
    }

    // The round at the end of path was accounted: every class on it had picked
    // the next one and did its policy's accounting for it; all other classes
    // keep their state and sleep as long as before.
    ghost predicate RoundDone(was: map<TrafficClass, Policy>, slept: map<TrafficClass, nat>, path: seq<TrafficClass>, u: Usage, tsc: nat)
      reads this`S, S`st, S`kids, S`blocked, S`parent, S`depth, S`wakeupTime
      reads path`st, path`kids, path`blocked, path`parent, path`depth, path`wakeupTime
    {
      && was.Keys == slept.Keys == S && Path(path) && (forall j :: 0 <= j < |path| ==> path[j] in S)
      && (forall j :: 0 <= j < |path| - 1 ==> Picks(was[path[j]], path[j].kids, path[j + 1]))
      && (forall j :: 0 <= j < |path| - 1 ==>
            Finished(was[path[j]], path[j].st, path[j + 1], path[j + 1].blocked, u, tsc, path[j].wakeupTime))
      && (forall c :: c in S && c !in path ==> c.st == was[c] && c.wakeupTime == slept[c])
    }

    // What a whole round did after the classes were woken: it found no runnable
    // leaf and changed nothing more, or it descended from the root along the
    // picks to a leaf, past classes that are awake, and accounted for it.
    ghost predicate RoundOf(leaf: TrafficClass?, path: seq<TrafficClass>, k: Waking, u: Usage, tsc: nat)
      reads this`root, this`S, S, path
    {
      && Linked(S) && k.woken.Keys == k.slept.Keys == S
      && if leaf == null then (root == null || !SomeLeafRunnable(root, S)) && Policies() == k.woken && WakeupTimes() == k.slept
         else && path != [] && path[0] == root && path[|path| - 1] == leaf && leaf.st.Leaf? && RoundDone(k.woken, k.slept, path, u, tsc)
              && forall j :: 0 <= j < |path| ==> k.slept[path[j]] == 0
    }

    lemma RoundFound(leaf: TrafficClass, path: seq<TrafficClass>, k: Waking, u: Usage, tsc: nat)
      requires Valid() && path != [] && path[0] == root && path[|path| - 1] == leaf && leaf.st.Leaf?
      requires k.woken.Keys == k.slept.Keys == S && RoundDone(k.woken, k.slept, path, u, tsc)
      requires forall j :: 0 <= j < |path| ==> path[j] in k.slept && k.slept[path[j]] == 0
      ensures RoundOf(leaf, path, k, u, tsc)
    {
    }

    lemma RoundEmpty(path: seq<TrafficClass>, k: Waking, u: Usage, tsc: nat)
      requires Valid() && k.woken == Policies() && k.slept == WakeupTimes() && (root == null || !SomeLeafRunnable(root, S))
      ensures RoundOf(null, path, k, u, tsc)
    {
    }

    // Accounts the round of the leaf at the end of path.
    method Settle(leaf: TrafficClass, u: Usage, tsc: nat, ghost path: seq<TrafficClass>)
      requires Settling(leaf, path) && tsc > 0
      modifies path`st, path`blocked, path`usage, path`wakeupTime, path`cntThrottled, wakeupQueue
      ensures Valid()
      ensures forall j :: 0 <= j < |path| ==> path[j].usage == old(path[j].usage).Plus(u)
      ensures forall j :: 0 <= j < |path| - 1 ==>
                Finished(old(path[j].st), path[j].st, path[j + 1], path[j + 1].blocked, u, tsc, path[j].wakeupTime)
      ensures leaf.st == old(leaf.st) && leaf.blocked == old(leaf.blocked) && leaf.wakeupTime == old(leaf.wakeupTime)
    {
      hide Queued, Linked, FlaggedBut, TrafficClass.BeforeFinish, Finished, Path, Picks;
      ghost var was := seq(|path|, j requires 0 <= j < |path| reads path => path[j].st);
      ghost var used := seq(|path|, j requires 0 <= j < |path| reads path => path[j].usage);
      assert Progress(path, |path|, was, used, u, tsc);
      assert forall j :: 0 <= j < |path| - 1 ==> PickedAt(path, was, j);
      leaf.FinishAndAccountTowardsRoot(wakeupQueue, u, tsc, S, path, was, used);
    }

    lemma SettlingPicks(leaf: TrafficClass, path: seq<TrafficClass>)
      requires Settling(leaf, path)
      ensures path != [] && Path(path) && (forall j :: 0 <= j < |path| ==> path[j] in S) && leaf == path[|path| - 1] && leaf.kids == []
      ensures forall j :: 0 <= j < |path| - 1 ==> Picks(path[j].st, path[j].kids, path[j + 1])
    {
    }

    // Settle, with what it did to every class.
    method SettleRound(leaf: TrafficClass, u: Usage, tsc: nat, ghost path: seq<TrafficClass>)
      requires Settling(leaf, path) && tsc > 0
      modifies path`st, path`blocked, path`usage, path`wakeupTime, path`cntThrottled, wakeupQueue
      ensures Valid() && RoundDone(old(Policies()), old(WakeupTimes()), path, u, tsc)
      ensures forall j :: 0 <= j < |path| ==> path[j].usage == old(path[j].usage).Plus(u)
      ensures leaf.st == old(leaf.st) && leaf.blocked == old(leaf.blocked) && leaf.wakeupTime == old(leaf.wakeupTime)
    {
      hide Valid, Settling, Picks, Finished, Path, RoundDone;
      SettlingPicks(leaf, path);
      ghost var was, slept := Policies(), WakeupTimes();
      Settle(leaf, u, tsc, path);
      RoundIsDone(was, slept, path, u, tsc);
    }

    lemma RoundIsDone(was: map<TrafficClass, Policy>, slept: map<TrafficClass, nat>, path: seq<TrafficClass>, u: Usage, tsc: nat)
      requires was.Keys == slept.Keys == S && Path(path) && (forall j :: 0 <= j < |path| ==> path[j] in S)
      requires forall j :: 0 <= j < |path| - 1 ==> Picks(was[path[j]], path[j].kids, path[j + 1])
      requires forall j :: 0 <= j < |path| - 1 ==>
                 Finished(was[path[j]], path[j].st, path[j + 1], path[j + 1].blocked, u, tsc, path[j].wakeupTime)
      requires forall c :: c in S && c !in path ==> c.st == was[c] && c.wakeupTime == slept[c]
      ensures RoundDone(was, slept, path, u, tsc)
    {
      hide Path, Picks, Finished;
    }

    // The same, seen from the whole tree.
    method Account(leaf: TrafficClass, u: Usage, tsc: nat, ghost path: seq<TrafficClass>)
      requires Settling(leaf, path) && tsc > 0
      modifies S`st, S`blocked, S`usage, S`wakeupTime, S`cntThrottled, wakeupQueue
      ensures Valid()
      ensures ChargedAlong(old(Usages()), Usages(), path, u)
      ensures old(Conserved()) ==> Conserved()
      ensures RoundDone(old(Policies()), old(WakeupTimes()), path, u, tsc) && leaf in S
      ensures leaf.st == old(leaf.st) == old(Policies())[leaf] && leaf.blocked == old(leaf.blocked) && leaf.wakeupTime == old(leaf.wakeupTime)
    {
      hide Valid, Settling, RoundDone, ConservedIn, Linked, Path, Picks, ChargedAlong;
      SettlingPicks(leaf, path);
      ghost var before := Usages();
      SettleRound(leaf, u, tsc, path);
      ChargedBy(before, path, u);
      ChargeConserves(before, path, u);
    }

    // A leaf was chosen by a descent from the root past awake classes.
    ghost predicate Chosen(leaf: TrafficClass, path: seq<TrafficClass>, k: Waking)
      reads this`root, this`S, S, path
    {
      && Descent(path, S) && path != [] && path[0] == root && path[|path| - 1] == leaf
      && leaf in S && leaf.st.Leaf? && k.woken == Policies() && k.slept == WakeupTimes()
      && forall j :: 0 <= j < |path| ==> path[j] in k.slept && k.slept[path[j]] == 0
    }

    // Next, with what is known of the wakeup times.
    method NextInTime(tsc: nat) returns (leaf: TrafficClass?, ghost path: seq<TrafficClass>, ghost k: Waking)
      requires Valid()
      modifies wakeupQueue, S`wakeupTime, S`st, S`blocked
      ensures Valid() && Linked(S) && k.woken == Policies() && k.slept == WakeupTimes()
      ensures leaf == null ==> root == null || !SomeLeafRunnable(root, S)
      ensures leaf != null ==> Chosen(leaf, path, k)
      ensures Awoken(k, old(Policies()), old(WakeupTimes()), S) && OnTime(k.slept, old(WakeupTimes()), tsc)
      ensures Usages() == old(Usages()) && (old(Conserved()) ==> Conserved())
    {
      hide Valid, Linked, Awoken, Conserved, SomeLeafRunnable, Descent;
      leaf, path, k := Next(tsc);
      ValidLinked();
      OnTimeHere(old(WakeupTimes()), tsc);
      if leaf != null { AwakeSlept(path, k); }
    }

    // The chosen leaf ran.
    method RunLeaf(leaf: TrafficClass, u: Usage, now: nat, ghost path: seq<TrafficClass>, ghost k: Waking)
      requires Valid() && Chosen(leaf, path, k) && now > 0
      modifies S`st, S`blocked, S`usage, S`wakeupTime, S`cntThrottled, wakeupQueue
      ensures Valid() && ChargedAlong(old(Usages()), Usages(), path, u) && (old(Conserved()) ==> Conserved())
      ensures RoundOf(leaf, path, k, u, now) && leaf in k.woken && leaf.st == k.woken[leaf] && leaf.wakeupTime == 0
      ensures path != [] && path[|path| - 1] == leaf
    {
      hide Valid, Settling, Descent, Conserved, RoundDone, RoundOf, ChargedAlong;
      ReadyToSettle(leaf, path);
      Account(leaf, u, now, path);
      RoundFound(leaf, path, k, u, now);
    }

    // The chosen leaf ran, and rests or not.
    method ServeLeaf(leaf: TrafficClass, u: Usage, sleeps: bool, now: nat, ghost path: seq<TrafficClass>, ghost k: Waking)
      requires Valid() && Chosen(leaf, path, k) && now > 0
      modifies S`st, S`blocked, S`usage, S`wakeupTime, S`cntThrottled, wakeupQueue
      ensures Valid() && ChargedAlong(old(Usages()), Usages(), path, u) && (old(Conserved()) ==> Conserved())
      ensures RoundOf(leaf, path, k, u, now) && leaf in k.woken && k.woken[leaf].Leaf?
      ensures Rested(leaf, k.woken[leaf].waitCycles, sleeps, now) && path != [] && path[|path| - 1] == leaf
    {
      hide Valid, Settling, Descent, Conserved, RoundDone, RoundOf, ChargedAlong, Rested;
      Serve(leaf, u, sleeps, now, path);
      RoundFound(leaf, path, k, u, now);
    }

    // A round that found nothing to run.
    method Idle(now: nat, ghost u: Usage, ghost path: seq<TrafficClass>, ghost k: Waking)
      requires Valid() && checkpoint <= now && (root == null || !SomeLeafRunnable(root, S))
      requires k.woken == Policies() && k.slept == WakeupTimes()
      modifies this`cntIdle, this`cyclesIdle
      ensures Valid() && cntIdle == old(cntIdle) + 1 && cyclesIdle == old(cyclesIdle) + (now - checkpoint)
      ensures RoundOf(null, path, k, u, now) && ChargedAlong(Usages(), Usages(), [], u)
      ensures old(Conserved()) ==> Conserved()
    {
      hide Valid, SomeLeafRunnable, Conserved, RoundOf, ChargedAlong;
      NoneCharged(Usages(), u);
      RoundEmpty(path, k, u, now);
      cntIdle, cyclesIdle := cntIdle + 1, cyclesIdle + (now - checkpoint);
    }

    // DefaultScheduler::ScheduleOnce. What the run returned and the clock after it
    // are parameters.
    method ScheduleOnce(packets: nat, bits: nat, now: nat)
        returns (leaf: TrafficClass?, ghost path: seq<TrafficClass>, ghost k: Waking)
      requires Valid() && checkpoint <= now && now > 0
      modifies this`checkpoint, this`cntIdle, this`cyclesIdle, wakeupQueue
      modifies S`wakeupTime, S`st, S`blocked, S`usage, S`cntThrottled
      ensures Valid() && checkpoint == now
      ensures leaf == null ==> cntIdle == old(cntIdle) + 1 && cyclesIdle == old(cyclesIdle) + (now - old(checkpoint))
      ensures leaf != null ==> cntIdle == old(cntIdle) && path != [] && path[|path| - 1] == leaf
      ensures Awoken(k, old(Policies()), old(WakeupTimes()), S) && OnTime(k.slept, old(WakeupTimes()), old(checkpoint))
      ensures RoundOf(leaf, path, k, Usage(1, now - old(checkpoint), packets, bits), now)
      ensures leaf != null ==> leaf in k.woken && leaf.st == k.woken[leaf] && leaf.wakeupTime == 0
      ensures ChargedAlong(old(Usages()), Usages(), if leaf == null then [] else path,
                           Usage(1, now - old(checkpoint), packets, bits))
      ensures old(Conserved()) ==> Conserved()
    {
      hide Valid, Settling, Descent, SomeLeafRunnable, Conserved, Linked, Awoken, RoundOf, ChargedAlong, Usages, Policies, WakeupTimes, OnTime, Chosen;
      leaf, path, k := NextInTime(checkpoint);
      var u := Usage(1, now - checkpoint, packets, bits);
      if leaf != null {
        RunLeaf(leaf, u, now, path, k);
      } else {
        Idle(now, u, path, k);
      }
      checkpoint := now;
    }

    // Those that were to wake before tsc are awake, the others sleep on.
    ghost predicate OnTime(slept: map<TrafficClass, nat>, was: map<TrafficClass, nat>, tsc: nat) {
      slept.Keys == was.Keys && forall c :: c in was ==> slept[c] == if was[c] < tsc then 0 else was[c]
    }

    lemma OnTimeHere(was: map<TrafficClass, nat>, tsc: nat)
      requires was.Keys == S && forall c :: c in S ==> c.wakeupTime == if was[c] < tsc then 0 else was[c]
      ensures OnTime(WakeupTimes(), was, tsc)
    {
    }

    lemma AwakeSlept(path: seq<TrafficClass>, k: Waking)
      requires Descent(path, S) && k.slept == WakeupTimes() && forall j :: 0 <= j < |path| ==> path[j].wakeupTime == 0
      ensures forall j :: 0 <= j < |path| ==> path[j] in k.slept && k.slept[path[j]] == 0
    {
    }

    // ExperimentalScheduler::ScheduleOnce: a leaf whose task blocked without a
    // packet goes to sleep and is charged nothing.
    method ScheduleOnceOrSleep(block: bool, packets: nat, bits: nat, now: nat)
        returns (leaf: TrafficClass?, ghost path: seq<TrafficClass>, ghost k: Waking)
      requires Valid() && checkpoint <= now && now > 0
      modifies this`checkpoint, this`cntIdle, this`cyclesIdle, wakeupQueue
      modifies S`wakeupTime, S`st, S`blocked, S`usage, S`cntThrottled
      ensures Valid() && checkpoint == now
      ensures leaf == null ==> cntIdle == old(cntIdle) + 1 && cyclesIdle == old(cyclesIdle) + (now - old(checkpoint))
      ensures leaf != null ==> cntIdle == old(cntIdle) && path != [] && path[|path| - 1] == leaf
      ensures if packets == 0 && block then Usages() == old(Usages())
              else ChargedAlong(old(Usages()), Usages(), if leaf == null then [] else path,
                                Usage(1, now - old(checkpoint), packets, bits))
      ensures old(Conserved()) ==> Conserved()
      ensures Awoken(k, old(Policies()), old(WakeupTimes()), S) && OnTime(k.slept, old(WakeupTimes()), old(checkpoint))
      ensures RoundOf(leaf, path, k, Bill(block, packets, bits, now - old(checkpoint)), now)
      ensures leaf != null ==> leaf in k.woken && k.woken[leaf].Leaf? && Rested(leaf, k.woken[leaf].waitCycles, packets == 0 && block, now)
    {
      hide Valid, Settling, Descent, SomeLeafRunnable, Conserved, Linked, Awoken, Rested, RoundOf, ChargedAlong, Bill, Usages, Policies, WakeupTimes, OnTime, Chosen;
      leaf, path, k := NextInTime(checkpoint);
      var sleeps := packets == 0 && block;
      var u := Bill(block, packets, bits, now - checkpoint);
      if leaf != null {
        ServeLeaf(leaf, u, sleeps, now, path, k);
      } else {
        Idle(now, u, path, k);
      }
      Billed(old(Usages()), Usages(), if leaf == null then [] else path, block, packets, bits, now - checkpoint);
      checkpoint := now;
    }

    // The leaf waits twice as long and sleeps, or halves its wait.
    ghost predicate Rested(leaf: TrafficClass, wait: nat, sleeps: bool, now: nat)
      reads leaf`st, leaf`blocked, leaf`wakeupTime
    {
      if sleeps then
        var next := if MAX_WAIT < 2 * wait then MAX_WAIT else 2 * wait;
        leaf.st == Leaf(next) && leaf.blocked && leaf.wakeupTime == now + next
      else leaf.st == Leaf((wait + 1) / 2) && leaf.wakeupTime == 0
    }

    lemma ValidLinked()
      requires Valid()
      ensures Linked(S)
    {
    }

    // The leaf goes to sleep or stays awake, then its round is accounted.
    method Serve(leaf: TrafficClass, u: Usage, sleeps: bool, now: nat, ghost path: seq<TrafficClass>)
      requires Valid() && Descent(path, S) && path != [] && path[|path| - 1] == leaf && leaf.st.Leaf? && now > 0
      modifies S`wakeupTime, S`st, S`blocked, S`usage, S`cntThrottled, wakeupQueue
      ensures Valid() && ChargedAlong(old(Usages()), Usages(), path, u)
      ensures old(Conserved()) ==> Conserved()
      ensures RoundDone(old(Policies()), old(WakeupTimes()), path, u, now) && leaf in S && old(Policies())[leaf].Leaf? && leaf.st.Leaf?
      ensures Rested(leaf, old(Policies())[leaf].waitCycles, sleeps, now)
    {
      hide Valid, Settling, Descent, ConservedIn, Linked, RoundDone, Rested, ChargedAlong;
      DescentLeaf(path);
      ghost var was, slept := Policies(), WakeupTimes();
      Rest(leaf, sleeps, now, path);
      ghost var rested, resting := Policies(), WakeupTimes();
      Account(leaf, u, now, path);
      RoundSame(was, rested, slept, resting, path, u, now);
    }

    method Rest(leaf: TrafficClass, sleeps: bool, now: nat, ghost path: seq<TrafficClass>)
      requires Valid() && Descent(path, S) && path != [] && path[|path| - 1] == leaf && leaf.st.Leaf? && now > 0
      modifies leaf`st, leaf`blocked, leaf`wakeupTime, wakeupQueue
      ensures Settling(leaf, path) && Rested(leaf, old(leaf.st.waitCycles), sleeps, now) && leaf.st.Leaf?
    {
      hide Valid, Settling, Descent;
      if sleeps {
        PutToSleep(leaf, now, path);
      } else {
        KeepAwake(leaf, now, path);
      }
    }

    lemma DescentLeaf(path: seq<TrafficClass>)
      requires Valid() && Descent(path, S)
      ensures path != [] && path[|path| - 1] in S
    {
    }

    // Only what the leaf does with its own state and time differs.
    lemma RoundSame(was: map<TrafficClass, Policy>, rested: map<TrafficClass, Policy>, slept: map<TrafficClass, nat>,
                    resting: map<TrafficClass, nat>, path: seq<TrafficClass>, u: Usage, tsc: nat)
      requires RoundDone(rested, resting, path, u, tsc) && was.Keys == rested.Keys == slept.Keys
      requires forall c :: c in was && c != path[|path| - 1] ==> rested[c] == was[c] && resting[c] == slept[c]
      ensures RoundDone(was, slept, path, u, tsc)
    {
      hide Finished, Picks;
    }

    method PutToSleep(leaf: TrafficClass, now: nat, ghost path: seq<TrafficClass>)
      requires Valid() && Descent(path, S) && path != [] && path[|path| - 1] == leaf && leaf.st.Leaf? && now > 0
      modifies leaf`st, leaf`blocked, leaf`wakeupTime, wakeupQueue
      ensures Settling(leaf, path) && Rested(leaf, old(leaf.st.waitCycles), true, now)
    {
      hide TrafficClass.Picked, TrafficClass.BeforeFinish, Queued;
      DescentFacts(path, S);
      leaf.LeafHasNoKids(S);
      leaf.Backoff(wakeupQueue, now, S);
    }

    method KeepAwake(leaf: TrafficClass, ghost now: nat, ghost path: seq<TrafficClass>)
      requires Valid() && Descent(path, S) && path != [] && path[|path| - 1] == leaf && leaf.st.Leaf?
      modifies leaf`st
      ensures Settling(leaf, path) && Rested(leaf, old(leaf.st.waitCycles), false, now)
    {
      hide TrafficClass.Picked, TrafficClass.BeforeFinish, Queued;
      DescentFacts(path, S);
      leaf.LeafHasNoKids(S);
      leaf.Relax(S);
    }

    lemma ReadyToSettle(leaf: TrafficClass, path: seq<TrafficClass>)
      requires Valid() && Descent(path, S) && path[|path| - 1] == leaf && leaf.st.Leaf?
      ensures Settling(leaf, path)
    {
      hide TrafficClass.Picked;
      var n := |path| - 1;
      PathUp(path, n);
      leaf.LeafHasNoKids(S);
      if n > 0 {
        assert path[n - 1].FlagOk();
        path[n - 1].AwaitsFinish(path[n]);
      }
    }

    ghost function Usages(): (m: map<TrafficClass, Usage>)
      reads this`S, S`usage
      ensures m.Keys == S
    {
      map c | c in S :: c.usage
    }

    // Every class with children has used exactly what its children used.
    ghost predicate Conserved()
      reads this`S, S`usage, S`kids, S`parent, S`depth
    {
      Linked(S) && ConservedIn(Usages(), S)
    }

    // A tree in which nothing was used yet, however it was built.
    lemma NothingUsed()
      requires Linked(S) && forall c :: c in S ==> c.usage == NO_USAGE
      ensures Conserved()
    {
      forall c | c in S && c.kids != [] ensures Usages()[c] == Total(c.kids, Usages()) {
        TotalZero(c.kids, Usages());
      }
    }

    lemma ChargedBy(before: map<TrafficClass, Usage>, path: seq<TrafficClass>, u: Usage)
      requires before.Keys == S && forall j :: 0 <= j < |path| ==> path[j] in S && path[j].usage == before[path[j]].Plus(u)
      requires forall c :: c in S && c !in path ==> c.usage == before[c]
      ensures ChargedAlong(before, Usages(), path, u)
    {
    }

    lemma ChargeConserves(before: map<TrafficClass, Usage>, path: seq<TrafficClass>, u: Usage)
      requires Valid() && path != [] && Path(path) && path[|path| - 1].kids == []
      requires forall j :: 0 <= j < |path| ==> path[j] in S
      requires before.Keys == S && ChargedAlong(before, Usages(), path, u) 
      ensures ConservedIn(before, S) ==> Conserved()
    {
      if ConservedIn(before, S) {
        ChargeAlongConserves(before, Usages(), path, u, S);
      }
    }
  }

  // path is a chain down from a root on which every class would pick the next.
  ghost predicate Descent(path: seq<TrafficClass>, S: set<TrafficClass>)
    reads S, path
  {
    && Path(path)
    && (forall j :: 0 <= j < |path| ==> path[j] in S && !path[j].blocked)
    && (forall j :: 0 <= j < |path| - 1 ==> path[j].Picked(path[j + 1]))
  }

  lemma DescentStep(path: seq<TrafficClass>, k: TrafficClass, S: set<TrafficClass>)
    requires Linked(S) && Descent(path, S) && !k.blocked
    requires var c := path[|path| - 1]; c.Picked(k) && k in c.kids
    ensures Descent(path + [k], S) && k in S
    ensures Deeper(k, S) < Deeper(path[|path| - 1], S)
  {
    hide TrafficClass.Picked;
    var c := path[|path| - 1];
    assert c.LinksOk(S);
    assert k.LinksOk(S);
    assert k in Deeper(c, S) && k !in Deeper(k, S);
  }

  lemma DescentFacts(path: seq<TrafficClass>, S: set<TrafficClass>)
    requires Descent(path, S)
    ensures var n := |path| - 1;
      path[n].parent == null || (n > 0 && path[n].parent == path[n - 1] && path[n - 1].Picked(path[n]))
  {
    PathUp(path, |path| - 1);
  }

  lemma DescentAwake(path: seq<TrafficClass>, S: set<TrafficClass>)
    requires TreeOk(S) && Descent(path, S)
    ensures forall j :: 0 <= j < |path| ==> path[j].wakeupTime == 0
  {
    forall j | 0 <= j < |path| ensures path[j].wakeupTime == 0 {
      assert path[j].FlagOk();
    }
  }
}
