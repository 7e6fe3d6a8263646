/** The tree of traffic classes. */
module TrafficClasses {
  import opened ExtendedPriorityQueue
  import RR = RoundRobin
  import WF = Stride
  import TB = TokenBucket

  datatype Resource = Count | Cycle | Packet | Bit

  datatype Usage = Usage(count: nat, cycle: nat, packet: nat, bit: nat) {
    function Of(r: Resource): nat {
      match r
      case Count => count
      case Cycle => cycle
      case Packet => packet
      case Bit => bit
    }

    function Plus(u: Usage): Usage {
      Usage(count + u.count, cycle + u.cycle, packet + u.packet, bit + u.bit)
    }
  }

  // kMaxWait of the experimental scheduler
  const MAX_WAIT: nat := 1048576

  const NO_USAGE := Usage(0, 0, 0, 0)

  // The state a policy keeps besides the vector of children.
  datatype Policy =
    | Priority(prios: seq<nat>, firstRunnable: nat)
    | WeightedFair(shared: Resource, fair: WF.Fair<TrafficClass>)
    | RoundRobin(ring: RR.Ring<TrafficClass>)
    | RateLimit(limited: Resource, bucket: TB.Bucket)
    | Leaf(waitCycles: nat)

  // Classes queued to run by a list-keeping policy, and its parked ones.
  ghost function RunSet(st: Policy): set<TrafficClass> {
    match st
    case WeightedFair(_, fair) => WF.Ids(fair.runnable)
    case RoundRobin(ring) => RR.Elems(ring.runnable)
    case _ => {}
  }

  ghost function BlkSet(st: Policy): set<TrafficClass> {
    match st
    case WeightedFair(_, fair) => WF.Ids(fair.blocked)
    case RoundRobin(ring) => RR.Elems(ring.blocked)
    case _ => {}
  }

  ghost predicate Sorted(s: seq<nat>) {
    forall i, j :: 0 <= i < j < |s| ==> s[i] < s[j]
  }

  ghost predicate NoDup<T>(s: seq<T>) {
    forall i, j :: 0 <= i < j < |s| ==> s[i] != s[j]
  }

  // The policy state is well formed for the given children.
  ghost predicate ListsOk(st: Policy, kids: seq<TrafficClass>) {
    match st
    case Priority(prios, first) => |prios| == |kids| && Sorted(prios) && first <= |kids|
    case WeightedFair(_, fair) =>
      WF.Valid(fair) && RunSet(st) !! BlkSet(st) && RunSet(st) + BlkSet(st) == RR.Elems(kids)
    case RoundRobin(ring) =>
      RR.Valid(ring) && RunSet(st) !! BlkSet(st) && RunSet(st) + BlkSet(st) == RR.Elems(kids)
    case RateLimit(_, bucket) => |kids| <= 1 && bucket.limit > 0
    case Leaf(_) => kids == []
  }

  // Moving the flagged classes from the queue to the parked ones leaves a
  // partition of the children by their flag.
  lemma PartitionAfterBlock(kids: seq<TrafficClass>, run: set<TrafficClass>, blk: set<TrafficClass>,
                            flagged: set<TrafficClass>)
    requires run !! blk && run + blk == RR.Elems(kids)
    requires forall i :: 0 <= i < |kids| && kids[i] in blk ==> kids[i] in flagged
    ensures (run - flagged) !! (blk + run * flagged)
    ensures (run - flagged) + (blk + run * flagged) == RR.Elems(kids)
    ensures forall i :: 0 <= i < |kids| ==> (kids[i] in blk + run * flagged <==> kids[i] in flagged)
  {
    forall i | 0 <= i < |kids| ensures kids[i] in blk + run * flagged <==> kids[i] in flagged {
      assert kids[i] in RR.Elems(kids);
    }
  }

  lemma PartitionAfterPark(kids: seq<TrafficClass>, run: set<TrafficClass>, blk: set<TrafficClass>, child: TrafficClass)
    requires run !! blk && run + blk == RR.Elems(kids) && child in run
    ensures (run - {child}) !! (blk + {child}) && (run - {child}) + (blk + {child}) == RR.Elems(kids)
  {
  }

  // What UnblockTowardsRoot may do to a class: queued children stay queued in
  // order or with their pass, woken ones come from the parked ones.
  ghost predicate Woke(p: Policy, q: Policy, tsc: nat) {
    match p
    case Priority(prios, _) => q.Priority? && q.prios == prios
    case WeightedFair(shared, fair) =>
      && q.WeightedFair? && q.shared == shared
      && multiset(fair.runnable) <= multiset(q.fair.runnable) && multiset(q.fair.blocked) <= multiset(fair.blocked)
    case RoundRobin(ring) =>
      && q.RoundRobin? && q.ring.next == ring.next
      && q.ring.runnable == ring.runnable + RR.Keep(ring.blocked, RR.Elems(q.ring.blocked))
      && q.ring.blocked == RR.Only(ring.blocked, RR.Elems(q.ring.blocked))
    case RateLimit(limited, bucket) => q == RateLimit(limited, TB.Resume(bucket, tsc))
    case Leaf(_) => q == p
  }

  // The same in single steps: a weighted-fair class wakes one child at a time.
  ghost predicate WokeOne(p: Policy, q: Policy, tsc: nat) {
    if p.WeightedFair? then
      q.WeightedFair? && q.shared == p.shared && exists i: nat :: WF.Woken(p.fair, q.fair, i)
    else Woke(p, q, tsc)
  }

  // A trail of such steps from one state to another.
  ghost predicate Trail(tr: seq<Policy>, p: Policy, q: Policy) {
    tr != [] && tr[0] == p && tr[|tr| - 1] == q && forall k :: 0 <= k < |tr| - 1 ==> TrailStep(tr, k)
  }

  ghost predicate TrailStep(tr: seq<Policy>, k: nat)
    requires k + 1 < |tr|
  {
    WokeSome(tr[k], tr[k + 1])
  }

  ghost predicate WokeSome(p: Policy, q: Policy) {
    exists tsc: nat {:trigger WokeOne(p, q, tsc)} :: WokeOne(p, q, tsc)
  }

  lemma TrailStay(p: Policy)
    ensures Trail([p], p, p)
  {
  }

  lemma TrailOnce(p: Policy, q: Policy, tsc: nat)
    requires WokeOne(p, q, tsc)
    ensures Trail([p, q], p, q)
  {
    assert WokeSome(p, q);
  }

  lemma TrailJoin(t: seq<Policy>, u: seq<Policy>, p: Policy, q: Policy, o: Policy)
    requires Trail(t, p, q) && Trail(u, q, o)
    ensures Trail(t + u[1..], p, o)
  {
    var v := t + u[1..];
    forall k | 0 <= k < |v| - 1 ensures TrailStep(v, k) {
      if k < |t| - 1 {
        assert TrailStep(t, k);
      } else {
        assert TrailStep(u, k - (|t| - 1));
        assert v[k] == u[k - (|t| - 1)] && v[k + 1] == u[k + 1 - (|t| - 1)];
      }
    }
  }

  lemma TrailOfFair(trace: seq<WF.Fair<TrafficClass>>, shared: Resource, f: WF.Fair<TrafficClass>, g: WF.Fair<TrafficClass>)
    requires WF.WakeTrace(trace, f, g)
    ensures Trail(seq(|trace|, k requires 0 <= k < |trace| => WeightedFair(shared, trace[k])), WeightedFair(shared, f), WeightedFair(shared, g))
  {
    hide WF.Woken;
    var tr := seq(|trace|, k requires 0 <= k < |trace| => WeightedFair(shared, trace[k]));
    forall k | 0 <= k < |tr| - 1 ensures TrailStep(tr, k) {
      assert WF.WokeOne(trace[k], trace[k + 1]);
      assert WokeOne(tr[k], tr[k + 1], 0);
      assert WokeSome(tr[k], tr[k + 1]);
    }
  }

  // What BlockTowardsRoot may do to a class: children leave the queue, the
  // others keep their pass or their cyclic order.
  ghost predicate Halted(p: Policy, q: Policy) {
    match p
    case Priority(prios, first) => q.Priority? && q.prios == prios && first <= q.firstRunnable
    case WeightedFair(shared, fair) =>
      && q.WeightedFair? && q.shared == shared
      && (q.fair == fair || exists e :: e in fair.runnable && WF.Stopped(fair, q.fair, e))
    case RoundRobin(ring) =>
      && q.RoundRobin? && RR.Valid(ring) && RR.Valid(q.ring) && RR.Members(q.ring) == RR.Members(ring)
      && RR.Cycle(q.ring) == RR.Keep(RR.Cycle(ring), RR.Elems(q.ring.blocked))
    case RateLimit(_, _) => q == p
    case Leaf(_) => q == p
  }

  // PickNextChild, in this state, returns child.
  ghost predicate Picks(st: Policy, kids: seq<TrafficClass>, child: TrafficClass) {
    && ListsOk(st, kids)
    && match st
       case Priority(_, first) => first < |kids| && kids[first] == child
       case WeightedFair(_, fair) => fair.runnable != [] && fair.runnable[0].val.c == child
       case RoundRobin(ring) => ring.next < |ring.runnable| && ring.runnable[ring.next] == child
       case RateLimit(_, _) => kids == [child]
       case Leaf(_) => false
  }

  // What accounting one round does to the state and the wakeup time of the class
  // that picked child.
  ghost predicate Finished(p: Policy, q: Policy, child: TrafficClass, childBlocked: bool, u: Usage, tsc: nat, wakeup: nat) {
    match p
    case Priority(prios, _) => q.Priority? && q.prios == prios && wakeup == 0
    case WeightedFair(shared, fair) =>
      && q.WeightedFair? && q.shared == shared && wakeup == 0
      && (if childBlocked then WF.Parked(fair, q.fair, u.Of(shared)) else WF.Charged(fair, q.fair, u.Of(shared)))
    case RoundRobin(ring) =>
      ring.next < |ring.runnable| && q == RoundRobin(RR.Finish(ring, child, childBlocked, u.count)) && wakeup == 0
    case RateLimit(limited, bucket) =>
      var acc := TB.Account(bucket, TB.ToWorkUnits(u.Of(limited)), tsc);
      q == RateLimit(limited, acc.bucket) && wakeup == acc.wakeup
    case Leaf(_) => q == p && wakeup == 0
  }

  ghost predicate Linked(S: set<TrafficClass>)
    reads S`parent, S`kids, S`depth
  {
    forall c :: c in S ==> c.LinksOk(S)
  }

  // Class c is on the way from d to the root.
  ghost predicate Above(c: TrafficClass, d: TrafficClass, S: set<TrafficClass>)
    requires Linked(S) && d in S
    reads S`parent, S`kids, S`depth
    decreases d.depth
  {
    d.parent != null && (d.parent == c || Above(c, d.parent, S))
  }

  ghost predicate FlaggedBut(S: set<TrafficClass>, x: TrafficClass?)
    reads S`parent, S`kids, S`depth, S`st, S`blocked, S`wakeupTime
    requires Linked(S)
  {
    forall c {:trigger c.FlagOk()} :: c in S && c != x ==> c.FlagOk()
  }

  // The tree invariant: links are mutual and every remembered flag is right.
  ghost predicate TreeOk(S: set<TrafficClass>)
    reads S`parent, S`kids, S`depth, S`st, S`blocked, S`wakeupTime
  {
    Linked(S) && FlaggedBut(S, null)
  }

  // The wakeup queue holds each sleeping class exactly once, by wakeup time.
  ghost predicate Queued(q: seq<Entry<TrafficClass>>, S: set<TrafficClass>)
    reads S`wakeupTime
  {
    && IsHeap(q)
    && (forall e :: e in q ==> e.val in S && e.key == e.val.wakeupTime && e.key != 0)
    && (forall c :: c in S && c.wakeupTime != 0 ==> multiset(q)[Entry(c.wakeupTime, c)] == 1)
  }

  // A chain of classes from a root downwards.
  ghost predicate Path(path: seq<TrafficClass>)
    reads path`parent, path`depth
  {
    && path != [] && path[0].parent == null
    && (forall j :: 0 < j < |path| ==> path[j].parent == path[j - 1])
    && (forall i, j :: 0 <= i < j < |path| ==> path[i] != path[j] && path[i].depth < path[j].depth)
  }

  class SchedWakeupQueue {
    var q: seq<Entry<TrafficClass>>

    constructor ()
      ensures q == []
    {
      q := [];
    }

    method Add(c: TrafficClass)
      requires IsHeap(q)
      modifies this
      ensures IsHeap(q) && multiset(q) == old(multiset(q)) + multiset{Entry(c.wakeupTime, c)}
    {
      q := Push(q, Entry(c.wakeupTime, c));
    }
  }

  class TrafficClass {
    var parent: TrafficClass?
    var kids: seq<TrafficClass>
    var st: Policy
    var blocked: bool
    var wakeupTime: nat
    var usage: Usage
    var cntThrottled: nat
    ghost var depth: nat

    // A class starts without parent and children; only a leaf starts unblocked.
    constructor (policy: Policy)
      requires ListsOk(policy, [])
      ensures parent == null && kids == [] && st == policy && wakeupTime == 0 && usage == NO_USAGE
      ensures blocked <==> !policy.Leaf?
      ensures LinksOk({this}) && FlagOk()
    {
      parent, kids, st, wakeupTime := null, [], policy, 0;
      blocked := !policy.Leaf?;
      usage, cntThrottled, depth := NO_USAGE, 0, 0;
    }

    ghost predicate LinksOk(S: set<TrafficClass>)
      reads S`parent, S`kids, S`depth, this`parent, this`kids, this`depth
    {
      && this in S
      && (parent != null ==> parent in S && this in parent.kids && parent.depth < depth)
      && (forall i :: 0 <= i < |kids| ==> kids[i] in S && kids[i].parent == this)
      && NoDup(kids)
    }

    // Some child can run, as far as the children's own flags tell.
    ghost predicate HasOpenKid()
      reads this`kids, kids`blocked
    {
      exists i :: 0 <= i < |kids| && !kids[i].blocked
    }

    // What a composite class remembers about its children agrees with their flags.
    ghost predicate ListsAgree()
      reads this`kids, this`st, kids`blocked
    {
      && ListsOk(st, kids)
      && match st
         case Priority(_, first) =>
           && (forall i :: 0 <= i < first ==> kids[i].blocked)
           && (first < |kids| ==> !kids[first].blocked)
         case WeightedFair(_, _) => forall i :: 0 <= i < |kids| ==> (kids[i].blocked <==> kids[i] in BlkSet(st))
         case RoundRobin(_) => forall i :: 0 <= i < |kids| ==> (kids[i].blocked <==> kids[i] in BlkSet(st))
         case _ => true
    }

    // What blocked_ should be.
    ghost predicate ShouldBlock()
      reads this`kids, this`st, this`wakeupTime, kids`blocked
    {
      wakeupTime != 0 || (!st.Leaf? && !HasOpenKid())
    }

    ghost predicate FlagOk()
      reads this`kids, this`st, this`wakeupTime, this`blocked, kids`blocked
    {
      && ListsAgree()
      && (wakeupTime != 0 ==> st.RateLimit? || st.Leaf?)
      && (blocked <==> ShouldBlock())
    }

    // Right after some child was unblocked (or, for a sleeper, its wakeup cleared).
    ghost predicate BeforeUnblock()
      reads this`kids, this`st, this`wakeupTime, this`blocked, kids`blocked
    {
      && ListsOk(st, kids)
      && (wakeupTime != 0 ==> st.RateLimit?)
      && ((st.WeightedFair? || st.RoundRobin?) ==>
            forall i :: 0 <= i < |kids| && kids[i] in RunSet(st) ==> !kids[i].blocked)
      && (!blocked ==> !ShouldBlock())
    }

    method PriorityUnblock(ghost tsc: nat)
      requires ListsOk(st, kids) && st.Priority?
      modifies this`st
      ensures st.Priority? && ListsAgree() && Woke(old(st), st, tsc)
    {
      var first := 0;
      while first < |kids| && kids[first].blocked
        invariant 0 <= first <= |kids|
        invariant forall i :: 0 <= i < first ==> kids[i].blocked
      {
        first := first + 1;
      }
      st := st.(firstRunnable := first);
    }

    method FairUnblock(ghost tsc: nat) returns (ghost tr: seq<Policy>)
      requires st.WeightedFair? && BeforeUnblock()
      modifies this`st
      ensures st.WeightedFair? && ListsAgree() && Woke(old(st), st, tsc) && Trail(tr, old(st), st)
    {
      hide Trail, WF.WakeTrace;
      var flagged := set k | k in kids && k.blocked;
      var shared := st.shared;
      ghost var trace;
      var fair;
      fair, trace := WF.Unblock(st.fair, flagged);
      TrailOfFair(trace, shared, st.fair, fair);
      tr := seq(|trace|, k requires 0 <= k < |trace| => WeightedFair(shared, trace[k]));
      st := st.(fair := fair);
    }

    method RingUnblock(ghost tsc: nat)
      requires st.RoundRobin? && BeforeUnblock()
      modifies this`st
      ensures st.RoundRobin? && ListsAgree() && Woke(old(st), st, tsc)
    {
      hide RR.Valid, RR.Members;
      var flagged := set k | k in kids && k.blocked;
      var ring := RR.Unblock(st.ring, flagged);
      st := st.(ring := ring);
    }

    lemma OpenIffQueued()
      requires ListsAgree()
      ensures st.WeightedFair? ==> (HasOpenKid() <==> st.fair.runnable != [])
      ensures st.RoundRobin? ==> (HasOpenKid() <==> st.ring.runnable != [])
    {
      if HasOpenKid() {
        var i :| 0 <= i < |kids| && !kids[i].blocked;
        assert kids[i] in RR.Elems(kids);
      }
      if st.WeightedFair? && st.fair.runnable != [] {
        assert st.fair.runnable[0].val.c in RunSet(st);
      }
      if st.RoundRobin? && st.ring.runnable != [] {
        assert st.ring.runnable[0] in RunSet(st);
      }
    }

    // The policy's part of UnblockTowardsRoot: repair the lists, decide blocked.
    method UnblockSelf(tsc: nat) returns (nowBlocked: bool, ghost tr: seq<Policy>)
      requires BeforeUnblock()
      modifies this`st
      ensures ListsAgree() && Woke(old(st), st, tsc) && Trail(tr, old(st), st)
      ensures st.Leaf? <==> old(st.Leaf?)
      ensures st.RateLimit? <==> old(st.RateLimit?)
      ensures nowBlocked <==> ShouldBlock()
    {
      hide Trail;
      ghost var was := st;
      match st {
        case Priority(_, _) =>
          PriorityUnblock(tsc);
          nowBlocked := st.firstRunnable >= |kids|;
        case WeightedFair(_, _) =>
          tr := FairUnblock(tsc);
          OpenIffQueued();
          nowBlocked := st.fair.runnable == [];
          return;
        case RoundRobin(_) =>
          RingUnblock(tsc);
          OpenIffQueued();
          nowBlocked := st.ring.runnable == [];
        case RateLimit(_, bucket) =>
          st := st.(bucket := TB.Resume(bucket, tsc));
          nowBlocked := wakeupTime != 0 || kids == [] || kids[0].blocked;
        case Leaf(_) =>
          nowBlocked := false;
      }
      TrailOnce(was, st, tsc);
      tr := [was, st];
    }
  
    method UnblockTowardsRoot(tsc: nat, ghost S: set<TrafficClass>) returns (ghost tr: map<TrafficClass, seq<Policy>>)
      requires Linked(S) && this in S && FlaggedBut(S, this) && BeforeUnblock()
      modifies S`st, S`blocked
      ensures TreeOk(S)
      ensures forall c :: c in S && c.depth > depth ==> c.st == old(c.st) && c.blocked == old(c.blocked)
      ensures forall c :: c in S ==> if c in tr then Woke(old(c.st), c.st, tsc) && Trail(tr[c], old(c.st), c.st) else c.st == old(c.st)
      ensures this in tr && forall c :: c in tr ==> c == this || Above(c, this, S)
      decreases depth, 1
    {
      hide Woke, ListsAgree, LinksOk, Trail;
      ghost var own;
      var nowBlocked;
      nowBlocked, own := UnblockSelf(tsc);
      tr := UnblockTowardsRootSetBlocked(tsc, nowBlocked, S);
      tr := tr[this := own];
    }

    method UnblockTowardsRootSetBlocked(tsc: nat, nowBlocked: bool, ghost S: set<TrafficClass>)
        returns (ghost tr: map<TrafficClass, seq<Policy>>)
      requires Linked(S) && this in S && FlaggedBut(S, this) && ListsAgree()
      requires wakeupTime != 0 ==> st.RateLimit?
      requires nowBlocked <==> ShouldBlock()
      requires !blocked ==> !nowBlocked
      modifies S`st, S`blocked
      ensures TreeOk(S)
      ensures st == old(st)
      ensures forall c :: c in S && c.depth > depth ==> c.st == old(c.st) && c.blocked == old(c.blocked)
      ensures forall c :: c in S ==> if c in tr then Woke(old(c.st), c.st, tsc) && Trail(tr[c], old(c.st), c.st) else c.st == old(c.st)
      ensures forall c :: c in tr ==> Above(c, this, S)
      decreases depth, 0
    {
      hide Woke, BeforeUnblock, ListsAgree, ShouldBlock, Trail;
      assert parent != null ==> parent.FlagOk();
      var becameUnblocked := !nowBlocked && blocked;
      blocked := nowBlocked;
      FlagsElsewhere(S);
      tr := map[];
      if parent == null || !becameUnblocked {
        return;
      }
      ParentNeedsUnblock(parent);
      tr := parent.UnblockTowardsRoot(tsc, S);
    }
  
    // The lists are right about every child but x, which is blocked.
    ghost predicate AgreeBut(x: TrafficClass?)
      reads this`kids, this`st, kids`blocked
    {
      forall i :: 0 <= i < |kids| ==>
                    if kids[i] == x then kids[i].blocked else kids[i].blocked <==> kids[i] in BlkSet(st)
    }

    // Flags of classes other than this and its parent do not depend on this.
    twostate lemma FlagsElsewhere(S: set<TrafficClass>)
      requires this in S && Linked(S) && old(Linked(S))
      requires forall c :: c in S ==> c.kids == old(c.kids) && c.parent == old(c.parent)
      requires forall c :: c in S && c != this ==>
        c.st == old(c.st) && c.wakeupTime == old(c.wakeupTime) && c.blocked == old(c.blocked)
      ensures forall c :: c in S && c != this && c != parent && old(c.FlagOk()) ==> c.FlagOk()
    {
      forall c | c in S && c != this && c != parent && old(c.FlagOk()) ensures c.FlagOk() {
        assert forall i :: 0 <= i < |c.kids| ==> c.kids[i].parent == c && c.kids[i].blocked == old(c.kids[i].blocked);
      }
    }

    // p itself did not change, and among its children only this did.
    twostate predicate OnlyThisKidChanged(p: TrafficClass)
      reads p, p.kids
    {
      && this in p.kids && p != this
      && p.kids == old(p.kids) && p.st == old(p.st) && p.wakeupTime == old(p.wakeupTime) && p.blocked == old(p.blocked)
      && forall i :: 0 <= i < |p.kids| && p.kids[i] != this ==> p.kids[i].blocked == old(p.kids[i].blocked)
    }

    twostate lemma ParentNeedsBlock(p: TrafficClass)
      requires OnlyThisKidChanged(p) && old(p.FlagOk())
      requires blocked && !old(blocked)
      ensures p.BeforeBlock(this)
    {
    }

    twostate lemma ParentNeedsUnblock(p: TrafficClass)
      requires OnlyThisKidChanged(p) && old(p.FlagOk())
      requires !blocked && old(blocked)
      ensures p.BeforeUnblock()
    {
    }

    // Right after child x became blocked, or, with x null, after a child was removed.
    ghost predicate BeforeBlock(x: TrafficClass?)
      reads this`kids, this`st, this`wakeupTime, this`blocked, kids`blocked
    {
      && ListsOk(st, kids)
      && (wakeupTime != 0 ==> st.RateLimit?)
      && (match st
          case Priority(_, first) => forall i :: 0 <= i < first ==> kids[i].blocked
          case WeightedFair(_, _) => AgreeBut(x)
          case RoundRobin(_) => AgreeBut(x)
          case RateLimit(_, _) => !HasOpenKid()
          case Leaf(_) => true)
      && (blocked ==> ShouldBlock())
    }

    method PriorityBlock(ghost x: TrafficClass?)
      requires st.Priority? && BeforeBlock(x)
      modifies this`st
      ensures st.Priority? && ListsAgree() && Halted(old(st), st)
    {
      var first := st.firstRunnable;
      while first < |kids| && kids[first].blocked
        invariant 0 <= first <= |kids|
        invariant forall i :: 0 <= i < first ==> kids[i].blocked
      {
        first := first + 1;
      }
      st := st.(firstRunnable := first);
    }

    lemma SoleFlagged(x: TrafficClass?, flagged: set<TrafficClass>)
      requires st.WeightedFair? && ListsOk(st, kids) && AgreeBut(x)
      requires flagged == set k | k in kids && k.blocked
      ensures WF.AtMostOne(WF.Ids(st.fair.runnable) * flagged)
    {
      forall c | c in RunSet(st) * flagged ensures c == x {
        assert c in RR.Elems(kids) && c !in BlkSet(st);
      }
    }

    // Without a child that just became blocked there is nobody to move.
    lemma NoneFlagged(x: TrafficClass?, flagged: set<TrafficClass>)
      requires (st.WeightedFair? || st.RoundRobin?) && ListsOk(st, kids) && AgreeBut(x)
      requires flagged == set k | k in kids && k.blocked
      ensures x == null ==> RunSet(st) !! flagged
    {
      forall c | x == null && c in RunSet(st) ensures c !in flagged {
        assert c in RR.Elems(kids) && c !in BlkSet(st);
      }
    }

    method FairBlock(ghost x: TrafficClass?)
      requires st.WeightedFair? && BeforeBlock(x)
      modifies this`st
      ensures st.WeightedFair? && ListsAgree() && Halted(old(st), st)
      ensures x == null ==> st == old(st)
    {
      hide WF.Valid, WF.Stopped, WF.Ids;
      var flagged := set k | k in kids && k.blocked;
      SoleFlagged(x, flagged);
      NoneFlagged(x, flagged);
      PartitionAfterBlock(kids, RunSet(st), BlkSet(st), flagged);
      var fair := WF.Block(st.fair, flagged);
      st := st.(fair := fair);
    }

    method RingBlock(ghost x: TrafficClass?)
      requires st.RoundRobin? && BeforeBlock(x)
      modifies this`st
      ensures st.RoundRobin? && ListsAgree() && Halted(old(st), st)
      ensures x == null ==> st == old(st)
    {
      var flagged := set k | k in kids && k.blocked;
      NoneFlagged(x, flagged);
      PartitionAfterBlock(kids, RunSet(st), BlkSet(st), flagged);
      var ring := RR.Block(st.ring, flagged);
      st := st.(ring := ring);
    }

    // The policy's part of BlockTowardsRoot.
    method BlockSelf(ghost x: TrafficClass?) returns (nowBlocked: bool)
      requires BeforeBlock(x)
      modifies this`st
      ensures ListsAgree() && Halted(old(st), st) && (x == null && !st.Priority? ==> st == old(st))
      ensures st.Leaf? <==> old(st.Leaf?)
      ensures st.RateLimit? <==> old(st.RateLimit?)
      ensures nowBlocked <==> ShouldBlock()
    {
      match st {
        case Priority(_, _) =>
          PriorityBlock(x);
          nowBlocked := st.firstRunnable == |kids|;
        case WeightedFair(_, _) =>
          FairBlock(x);
          OpenIffQueued();
          nowBlocked := st.fair.runnable == [];
        case RoundRobin(_) =>
          RingBlock(x);
          OpenIffQueued();
          nowBlocked := st.ring.runnable == [];
        case RateLimit(_, _) =>
          nowBlocked := kids == [] || kids[0].blocked;
        case Leaf(_) =>
          nowBlocked := false;
      }
    }

    method BlockTowardsRoot(ghost x: TrafficClass?, ghost S: set<TrafficClass>)
      requires Linked(S) && this in S && FlaggedBut(S, this) && BeforeBlock(x)
      modifies S`st, S`blocked
      ensures TreeOk(S)
      ensures forall c :: c in S && c.depth > depth ==> c.st == old(c.st) && c.blocked == old(c.blocked)
      ensures forall c :: c in S ==> c.st == old(c.st) || Halted(old(c.st), c.st)
      ensures Halted(old(st), st) && (x == null && !st.Priority? ==> st == old(st))
      decreases depth, 1
    {
      hide Halted, ListsAgree, LinksOk;
      var nowBlocked := BlockSelf(x);
      BlockTowardsRootSetBlocked(nowBlocked, S);
    }

    method BlockTowardsRootSetBlocked(nowBlocked: bool, ghost S: set<TrafficClass>)
      requires Linked(S) && this in S && FlaggedBut(S, this) && ListsAgree()
      requires wakeupTime != 0 ==> st.RateLimit?
      requires nowBlocked <==> ShouldBlock()
      requires blocked ==> nowBlocked
      modifies S`st, S`blocked
      ensures TreeOk(S)
      ensures st == old(st)
      ensures forall c :: c in S && c.depth > depth ==> c.st == old(c.st) && c.blocked == old(c.blocked)
      ensures forall c :: c in S ==> c.st == old(c.st) || Halted(old(c.st), c.st)
      decreases depth, 0
    {
      hide Halted, BeforeBlock, ListsAgree, ShouldBlock;
      assert parent != null ==> parent.FlagOk();
      var becameBlocked := nowBlocked && !blocked;
      blocked := nowBlocked;
      FlagsElsewhere(S);
      assert FlaggedBut(S, parent);
      if parent == null || !becameBlocked {
        return;
      }
      ParentNeedsBlock(parent);
      parent.BlockTowardsRoot(this, S);
    }
  
    ghost predicate Picked(child: TrafficClass)
      reads this`kids, this`st
    {
      Picks(st, kids, child)
    }

    // The next schedulable child: never taken from an empty list, never blocked.
    method PickNextChild() returns (child: TrafficClass)
      requires FlagOk() && !blocked && !st.Leaf?
      ensures Picked(child) && child in kids && !child.blocked && FirstInLine(child)
    {
      OpenIffQueued();
      match st {
        case Priority(_, first) =>
          child := kids[first];
        case WeightedFair(_, fair) =>
          child := fair.runnable[0].val.c;
          assert child in RunSet(st) && child in RR.Elems(kids);
        case RoundRobin(ring) =>
          child := ring.runnable[ring.next];
          assert child in RunSet(st) && child in RR.Elems(kids);
        case RateLimit(_, _) =>
          child := kids[0];
      }
      PickedIsFirst(child);
    }

    // What the policy owes its children: the unblocked one with the least priority
    // number, one with the least pass, or the head of the cyclic queue.
    ghost predicate FirstInLine(child: TrafficClass)
      reads this`kids, this`st, kids`blocked
    {
      match st
      case Priority(prios, _) =>
        |prios| == |kids| &&
        exists i :: 0 <= i < |kids| && kids[i] == child && forall j :: 0 <= j < |kids| && !kids[j].blocked ==> prios[i] <= prios[j]
      case WeightedFair(_, fair) => exists e :: e in fair.runnable && e.val.c == child && forall x :: x in fair.runnable ==> e.key <= x.key
      case RoundRobin(ring) => ring.next <= |ring.runnable| && RR.Cycle(ring) != [] && RR.Cycle(ring)[0] == child
      case RateLimit(_, _) => kids == [child]
      case Leaf(_) => false
    }

    lemma PickedIsFirst(child: TrafficClass)
      requires FlagOk() && Picked(child)
      ensures FirstInLine(child)
    {
      match st {
        case Priority(prios, first) =>
          forall j | 0 <= j < |kids| && !kids[j].blocked ensures prios[first] <= prios[j] {
            assert first <= j && (first < j ==> prios[first] < prios[j]);
          }
        case WeightedFair(_, fair) =>
          var e := fair.runnable[0];
          assert e in fair.runnable;
          forall x | x in fair.runnable ensures e.key <= x.key {
            assert x in multiset(fair.runnable);
            TopIsMinimumOf(fair.runnable, x);
          }
        case _ =>
      }
    }

    // This class picked child, child ran, and perhaps came back blocked.
    ghost predicate BeforeFinish(child: TrafficClass)
      reads this`kids, this`st, this`wakeupTime, this`blocked, kids`blocked
    {
      && Picked(child) && !blocked && wakeupTime == 0
      && match st
         case Priority(_, first) => forall i :: 0 <= i < first ==> kids[i].blocked
         case WeightedFair(_, _) => AgreeElsewhere(child)
         case RoundRobin(_) => AgreeElsewhere(child)
         case _ => true
    }

    ghost predicate AgreeElsewhere(x: TrafficClass)
      reads this`kids, this`st, kids`blocked
    {
      forall i :: 0 <= i < |kids| && kids[i] != x ==> (kids[i].blocked <==> kids[i] in BlkSet(st))
    }

    method PriorityFinish(child: TrafficClass, ghost u: Usage, ghost tsc: nat)
      requires st.Priority? && BeforeFinish(child)
      modifies this`st, this`blocked
      ensures FlagOk() && Finished(old(st), st, child, child.blocked, u, tsc, wakeupTime)
    {
      if child.blocked {
        var first := st.firstRunnable;
        while first < |kids| && kids[first].blocked
          invariant 0 <= first <= |kids|
          invariant forall i :: 0 <= i < first ==> kids[i].blocked
        {
          first := first + 1;
        }
        st := st.(firstRunnable := first);
        blocked := first == |kids|;
      }
    }

    // Once the lists moved the picked child when it is blocked, they agree again.
    lemma AgreeAfterFinish(was: Policy, child: TrafficClass)
      requires ListsOk(st, kids) && (st.WeightedFair? || st.RoundRobin?)
      requires child in RunSet(was) && RunSet(was) !! BlkSet(was)
      requires forall i :: 0 <= i < |kids| && kids[i] != child ==> (kids[i].blocked <==> kids[i] in BlkSet(was))
      requires RunSet(was) + BlkSet(was) == RR.Elems(kids)
      requires BlkSet(st) == BlkSet(was) + if child.blocked then {child} else {}
      ensures ListsAgree()
      ensures child.blocked || HasOpenKid()
    {
      assert child in RR.Elems(kids);
    }

    method FairFinishLists(child: TrafficClass, u: Usage, ghost tsc: nat)
      requires st.WeightedFair? && BeforeFinish(child)
      modifies this`st
      ensures ListsAgree() && Finished(old(st), st, child, child.blocked, u, tsc, wakeupTime)
      ensures child.blocked || HasOpenKid()
    {
      ghost var was := st;
      assert st.fair.runnable[0].val.c in RunSet(st);
      PartitionAfterPark(kids, RunSet(st), BlkSet(st), child);
      var fair := WF.Finish(st.fair, child.blocked, u.Of(st.shared));
      st := st.(fair := fair);
      AgreeAfterFinish(was, child);
    }

    method FairFinish(child: TrafficClass, u: Usage, ghost tsc: nat)
      requires st.WeightedFair? && BeforeFinish(child)
      modifies this`st, this`blocked
      ensures FlagOk() && Finished(old(st), st, child, child.blocked, u, tsc, wakeupTime)
    {
      FairFinishLists(child, u, tsc);
      if child.blocked {
        OpenIffQueued();
        blocked := st.fair.runnable == [];
      }
    }

    method RingFinishLists(child: TrafficClass, u: Usage, ghost tsc: nat)
      requires st.RoundRobin? && BeforeFinish(child)
      modifies this`st
      ensures ListsAgree() && Finished(old(st), st, child, child.blocked, u, tsc, wakeupTime)
      ensures child.blocked || HasOpenKid()
    {
      hide RR.Finish;
      ghost var was := st;
      assert child in RunSet(st);
      PartitionAfterPark(kids, RunSet(st), BlkSet(st), child);
      RR.FinishMoves(st.ring, child, child.blocked, u.count);
      st := RoundRobin(RR.Finish(st.ring, child, child.blocked, u.count));
      AgreeAfterFinish(was, child);
    }

    method RingFinish(child: TrafficClass, u: Usage, ghost tsc: nat)
      requires st.RoundRobin? && BeforeFinish(child)
      modifies this`st, this`blocked
      ensures FlagOk() && Finished(old(st), st, child, child.blocked, u, tsc, wakeupTime)
    {
      RingFinishLists(child, u, tsc);
      OpenIffQueued();
      if child.blocked {
        blocked := st.ring.runnable == [];
      }
    }
  
    // Goes to sleep until the given time.
    method Sleep(wq: SchedWakeupQueue, until: nat, ghost S: set<TrafficClass>)
      requires this in S && wakeupTime == 0 && until > 0 && Queued(wq.q, S)
      modifies this`wakeupTime, wq
      ensures wakeupTime == until && Queued(wq.q, S)
    {
      ghost var q := wq.q;
      wakeupTime := until;
      wq.Add(this);
      var x := Entry(until, this);
      assert x in q <==> x in multiset(q);
      forall e | e in wq.q ensures e.val in S && e.key == e.val.wakeupTime && e.key != 0 {
        assert e in multiset(wq.q);
        assert e != x ==> e in multiset(q) && e in q;
      }
    }

    method LimitFinish(wq: SchedWakeupQueue, child: TrafficClass, u: Usage, tsc: nat, ghost S: set<TrafficClass>)
      requires st.RateLimit? && BeforeFinish(child) && this in S && tsc > 0 && Queued(wq.q, S)
      modifies this`st, this`blocked, this`wakeupTime, this`cntThrottled, wq
      ensures FlagOk() && Finished(old(st), st, child, child.blocked, u, tsc, wakeupTime) && Queued(wq.q, S)
    {
      var acc := TB.Account(st.bucket, TB.ToWorkUnits(u.Of(st.limited)), tsc);
      st := st.(bucket := acc.bucket);
      if acc.throttled {
        blocked := true;
        cntThrottled := cntThrottled + 1;
        if st.bucket.limit != 0 {
          Sleep(wq, acc.wakeup, S);
        }
      }
      blocked := blocked || child.blocked;
      assert HasOpenKid() <==> !kids[0].blocked;
    }
  
    twostate lemma ParentNeedsFinish(p: TrafficClass)
      requires OnlyThisKidChanged(p) && old(p.FlagOk())
      requires p.Picked(this) && !p.blocked
      ensures p.BeforeFinish(this)
    {
    }

    // A class that picked a child is ready to account for it.
    lemma AwaitsFinish(child: TrafficClass)
      requires FlagOk() && Picked(child) && !blocked
      ensures BeforeFinish(child)
    {
    }

    // The policy's part of FinishAndAccountTowardsRoot.
    method FinishSelf(wq: SchedWakeupQueue, child: TrafficClass, u: Usage, tsc: nat, ghost S: set<TrafficClass>)
      requires BeforeFinish(child) && this in S && tsc > 0 && Queued(wq.q, S)
      modifies this`st, this`blocked, this`wakeupTime, this`cntThrottled, wq
      ensures FlagOk() && Finished(old(st), st, child, child.blocked, u, tsc, wakeupTime) && Queued(wq.q, S)
    {
      hide FlagOk, Finished, Queued, AgreeElsewhere;
      match st {
        case Priority(_, _) => PriorityFinish(child, u, tsc);
        case WeightedFair(_, _) => FairFinish(child, u, tsc);
        case RoundRobin(_) => RingFinish(child, u, tsc);
        case RateLimit(_, _) => LimitFinish(wq, child, u, tsc, S);
      }
    }

    // After this class alone was brought up to date, only its parent may be stale.
    twostate lemma FinishedHere(S: set<TrafficClass>)
      requires this in S && Linked(S) && old(Linked(S)) && old(FlaggedBut(S, this)) && FlagOk()
      requires forall c :: c in S ==> c.kids == old(c.kids) && c.parent == old(c.parent)
      requires forall c :: c in S && c != this ==>
        c.st == old(c.st) && c.wakeupTime == old(c.wakeupTime) && c.blocked == old(c.blocked)
      ensures FlaggedBut(S, parent)
      ensures parent != null && parent.Picked(this) && !parent.blocked ==> parent.BeforeFinish(this)
    {
      FlagsElsewhere(S);
      assert forall c :: c in S && c != this ==> old(c.FlagOk());
      if parent != null && parent.Picked(this) && !parent.blocked {
        ParentNeedsFinish(parent);
      }
    }

    // One level of the climb.
    method FinishHere(wq: SchedWakeupQueue, child: TrafficClass, u: Usage, tsc: nat, ghost S: set<TrafficClass>)
      requires Linked(S) && this in S && tsc > 0 && Queued(wq.q, S) && FlaggedBut(S, this) && BeforeFinish(child)
      modifies this`st, this`blocked, this`usage, this`wakeupTime, this`cntThrottled, wq
      ensures FlaggedBut(S, parent) && Queued(wq.q, S)
      ensures usage == old(usage).Plus(u)
      ensures Finished(old(st), st, child, child.blocked, u, tsc, wakeupTime)
      ensures parent != null && parent.Picked(this) && !parent.blocked ==> parent.BeforeFinish(this)
    {
      hide FlagOk, BeforeFinish, Picked, Finished, Queued;
      usage := usage.Plus(u);
      FinishSelf(wq, child, u, tsc, S);
      FinishedHere(S);
    }

    // One level of the climb along path, of which child is the k-th.
    method FinishStep(wq: SchedWakeupQueue, child: TrafficClass, u: Usage, tsc: nat, ghost S: set<TrafficClass>,
                      ghost path: seq<TrafficClass>, ghost k: nat, ghost was: seq<Policy>, ghost used: seq<Usage>)
      requires Linked(S) && this in S && tsc > 0 && Queued(wq.q, S) && FlaggedBut(S, this) && BeforeFinish(child)
      requires Path(path) && 0 < k < |path| == |was| == |used| && path[k - 1] == this && path[k] == child
      requires k == 1 || PickedAt(path, was, k - 2)
      requires Progress(path, k, was, used, u, tsc)
      modifies this`st, this`blocked, this`usage, this`wakeupTime, this`cntThrottled, wq
      ensures FlaggedBut(S, parent) && Queued(wq.q, S)
      ensures if parent == null then k == 1 else k > 1 && parent == path[k - 2]
      ensures parent == null || parent.BeforeFinish(this)
      ensures Progress(path, k - 1, was, used, u, tsc)
    {
      hide FlagOk, BeforeFinish, Finished, Queued, ListsOk, Picks, FlaggedBut, Linked, Path;
      PathUp(path, k - 1);
      PathOnce(path, k - 1);
      assert k == 1 || path[k - 2].Picked(this);
      FinishHere(wq, child, u, tsc, S);
    }

    method ChargeLeaf(u: Usage, ghost tsc: nat, ghost path: seq<TrafficClass>, ghost was: seq<Policy>,
                      ghost used: seq<Usage>)
      requires path != [] && Path(path) && this == path[|path| - 1] && |was| == |used| == |path|
      requires Progress(path, |path|, was, used, u, tsc)
      modifies this`usage
      ensures Progress(path, |path| - 1, was, used, u, tsc)
    {
      usage := usage.Plus(u);
    }

    // Accounts usage u of this leaf up to the root. path is the chain the
    // scheduler descended; the leaf may just have gone to sleep. was and used
    // are the policy states and usages of the path at the start.
    method FinishAndAccountTowardsRoot(wq: SchedWakeupQueue, u: Usage, tsc: nat, ghost S: set<TrafficClass>,
                                       ghost path: seq<TrafficClass>, ghost was: seq<Policy>, ghost used: seq<Usage>)
      requires Linked(S) && tsc > 0 && Queued(wq.q, S)
      requires path != [] && Path(path) && this == path[|path| - 1] && (forall j :: 0 <= j < |path| ==> path[j] in S)
      requires FlaggedBut(S, parent) && (parent != null ==> parent.BeforeFinish(this))
      requires |was| == |used| == |path|
      requires forall j :: 0 <= j < |path| - 1 ==> PickedAt(path, was, j)
      requires Progress(path, |path|, was, used, u, tsc)
      modifies path`st, path`blocked, path`usage, path`wakeupTime, path`cntThrottled, wq
      ensures TreeOk(S) && Queued(wq.q, S)
      ensures Progress(path, 0, was, used, u, tsc)
      ensures st == old(st) && blocked == old(blocked) && wakeupTime == old(wakeupTime)
    {
      hide FlagOk, BeforeFinish, Finished, Queued, Picks, Linked, Path, Progress;
      PathOnce(path, |path| - 1);
      ChargeLeaf(u, tsc, path, was, used);
      var child := this;
      ghost var k := |path| - 1;
      PathUp(path, k);
      while child.parent != null
        invariant 0 <= k < |path| && child == path[k]
        invariant Linked(S) && Path(path)
        invariant FlaggedBut(S, child.parent) && Queued(wq.q, S)
        invariant if child.parent == null then k == 0 else k > 0 && child.parent == path[k - 1]
        invariant child.parent == null || child.parent.BeforeFinish(child)
        invariant Progress(path, k, was, used, u, tsc)
        invariant st == old(st) && blocked == old(blocked) && wakeupTime == old(wakeupTime)
        decreases k
      {
        var p := child.parent;
        assert k == 1 || PickedAt(path, was, k - 2);
        p.FinishStep(wq, child, u, tsc, S, path, k, was, used);
        child := p;
        k := k - 1;
      }
    }
  
    // A task that blocked without a packet makes its leaf wait twice as long.
    method Backoff(wq: SchedWakeupQueue, now: nat, ghost S: set<TrafficClass>)
      requires TreeOk(S) && this in S && st.Leaf? && !blocked && now > 0 && Queued(wq.q, S)
      modifies this`st, this`blocked, this`wakeupTime, wq
      ensures Linked(S) && FlaggedBut(S, parent) && Queued(wq.q, S)
      ensures parent != null && parent.Picked(this) && !parent.blocked ==> parent.BeforeFinish(this)
      ensures var wait := if MAX_WAIT < 2 * old(st.waitCycles) then MAX_WAIT else 2 * old(st.waitCycles);
              st == Leaf(wait) && wakeupTime == now + wait && blocked
    {
      hide BeforeFinish, Picked;
      assert FlagOk();
      var wait := if MAX_WAIT < 2 * st.waitCycles then MAX_WAIT else 2 * st.waitCycles;
      st := Leaf(wait);
      blocked := true;
      Sleep(wq, now + wait, S);
      FinishedHere(S);
    }

    // Any other outcome halves the wait.
    method Relax(ghost S: set<TrafficClass>)
      requires TreeOk(S) && this in S && st.Leaf? && !blocked
      modifies this`st
      ensures Linked(S) && FlaggedBut(S, parent)
      ensures parent != null && parent.Picked(this) && !parent.blocked ==> parent.BeforeFinish(this)
      ensures st == Leaf((old(st.waitCycles) + 1) / 2) && FlagOk()
    {
      hide BeforeFinish, Picked;
      assert FlagOk();
      st := Leaf((st.waitCycles + 1) / 2);
      FinishedHere(S);
    }

    // The root of the tree this class belongs to.
    ghost function Root(S: set<TrafficClass>): (r: TrafficClass)
      requires Linked(S) && this in S
      reads S`parent, S`kids, S`depth
      ensures r in S && r.parent == null && r.depth <= depth
      decreases depth
    {
      if parent == null then this else parent.Root(S)
    }

    // Lowers the whole tree below this root, to make room above it.
    ghost method Deepen(levels: nat, S: set<TrafficClass>)
      requires Linked(S) && this in S && parent == null
      modifies S`depth
      ensures Linked(S) && depth == old(depth) + levels
      ensures forall c :: c in S && old(c.Root(S)) != this ==> c.depth == old(c.depth)
    {
      forall c | c in S && c.Root(S) == this {
        c.depth := c.depth + levels;
      }
      forall c | c in S ensures c.LinksOk(S) {
        assert old(c.LinksOk(S));
        if c.parent != null {
          assert old(c.Root(S)) == old(c.parent.Root(S));
        }
      }
    }

    lemma InsertKeeps(child: TrafficClass, pos: nat)
      requires pos <= |kids| && NoDup(kids) && child !in kids
      ensures var more := kids[..pos] + [child] + kids[pos..];
        NoDup(more) && child in more && forall k :: k in more <==> k in kids || k == child
    {
      var more := kids[..pos] + [child] + kids[pos..];
      forall i | 0 <= i < |more| ensures more[i] == if i < pos then kids[i] else if i == pos then child else kids[i - 1] {}
      InsertMembers(kids, child, pos);
    }

    method LinkChild(child: TrafficClass, pos: nat, ghost S: set<TrafficClass>)
      requires Linked(S) && this in S && child in S && child.parent == null && Root(S) != child && pos <= |kids|
      modifies this`kids, child`parent, S`depth
      ensures Linked(S)
      ensures kids == old(kids)[..pos] + [child] + old(kids)[pos..] && child.parent == this
      ensures child !in old(kids) && depth < child.depth
    {
      child.Deepen(depth + 1, S);
      assert child !in kids;
      InsertKeeps(child, pos);
      label Deep:
      kids := kids[..pos] + [child] + kids[pos..];
      child.parent := this;
      forall c | c in S ensures c.LinksOk(S) {
        assert old@Deep(c.LinksOk(S));
        if c == this {
          forall i | 0 <= i < |kids| ensures kids[i] in S && kids[i].parent == this {
            assert kids[i] in kids;
          }
        } else {
          forall i | 0 <= i < |c.kids| ensures c.kids[i] in S && c.kids[i].parent == c {
            assert c.kids[i] != child;
          }
        }
      }
    }

    // Makes child, so far a root, the pos-th child of this class.
    method Adopt(child: TrafficClass, pos: nat, newSt: Policy, ghost S: set<TrafficClass>)
      requires TreeOk(S) && this in S && child in S && child.parent == null && Root(S) != child && pos <= |kids|
      modifies this`kids, this`st, child`parent, S`depth
      ensures Linked(S) && FlaggedBut(S, this)
      ensures kids == old(kids)[..pos] + [child] + old(kids)[pos..] && st == newSt && child.parent == this
      ensures child !in old(kids) && depth < child.depth
    {
      hide FlagOk;
      LinkChild(child, pos, S);
      st := newSt;
      forall c | c in S && c != this ensures c.FlagOk() {
        assert old(c.FlagOk());
      }
    }
  
    // One kind of policy never turns into another.
    static ghost predicate SameKind(p: Policy, q: Policy) {
      && (p.Priority? <==> q.Priority?) && (p.WeightedFair? <==> q.WeightedFair?) && (p.RoundRobin? <==> q.RoundRobin?)
      && (p.RateLimit? <==> q.RateLimit?) && (p.Leaf? <==> q.Leaf?)
    }

    // The adopting class is ready for UnblockTowardsRoot.
    twostate lemma ReadyToUnblock(child: TrafficClass)
      requires old(FlagOk()) && !st.Leaf?
      requires child in kids && (forall k :: k in kids <==> k in old(kids) || k == child)
      requires SameKind(old(st), st) && ListsOk(st, kids)
      requires RunSet(st) <= old(RunSet(st)) + if child.blocked then {} else {child}
      requires wakeupTime == old(wakeupTime) && blocked == old(blocked)
      requires forall k :: k in old(kids) ==> k.blocked == old(k.blocked)
      ensures BeforeUnblock()
    {
      if !blocked {
        var i :| 0 <= i < |old(kids)| && !old(kids[i].blocked);
        assert old(kids)[i] in kids;
        var j :| 0 <= j < |kids| && kids[j] == old(kids)[i];
        assert !kids[j].blocked;
      }
      if st.WeightedFair? || st.RoundRobin? {
        forall i | 0 <= i < |kids| && kids[i] in RunSet(st) ensures !kids[i].blocked {
          if kids[i] in old(RunSet(st)) {
            assert kids[i] in RR.Elems(old(kids));
            var j :| 0 <= j < |old(kids)| && old(kids)[j] == kids[i];
            assert !old(kids[j].blocked);
          }
        }
      }
    }

    lemma KidsDeeper(S: set<TrafficClass>)
      requires Linked(S) && this in S
      ensures forall k :: k in kids ==> k in S && k.depth > depth
    {
      forall k | k in kids ensures k in S && k.depth > depth {
        assert LinksOk(S) && k.LinksOk(S);
      }
    }

    lemma SameSets(p: Policy)
      requires FlagOk() && SameKind(p, st) && (st.WeightedFair? || st.RoundRobin?) && ListsOk(p, kids)
      requires forall k :: k in kids ==> (k.blocked <==> k in BlkSet(p))
      ensures BlkSet(p) == BlkSet(st) && RunSet(p) == RunSet(st)
    {
      hide WF.Valid, RR.Valid;
      assert RunSet(p) + BlkSet(p) == RR.Elems(kids) == RunSet(st) + BlkSet(st);
      forall c ensures c in BlkSet(p) <==> c in BlkSet(st) {
        if c in RR.Elems(kids) {
          var i :| 0 <= i < |kids| && kids[i] == c;
          assert kids[i] in kids;
        }
      }
    }

    // Unblocking wakes nobody when the parked children are the blocked ones.
    static lemma NobodyWoke(p: Policy, q: Policy, tsc: nat)
      requires (p == q || Woke(p, q, tsc)) && BlkSet(p) == BlkSet(q)
      ensures p.RoundRobin? ==> q == p
    {
      if p.RoundRobin? && p != q {
        var s := p.ring.blocked;
        RR.KeepOnlyPartition(s, RR.Elems(s));
        KeepsNone(s, RR.Elems(s));
      }
    }

    static lemma {:induction false} KeepsNone(s: seq<TrafficClass>, flagged: set<TrafficClass>)
      requires forall c :: c in s ==> c in flagged
      ensures RR.Keep(s, flagged) == [] && RR.Only(s, flagged) == s
    {
      if s != [] { KeepsNone(s[1..], flagged); }
    }

    static lemma NobodyWokeFair(p: Policy, q: Policy, tsc: nat)
      requires (p == q || Woke(p, q, tsc)) && p.WeightedFair? && q.WeightedFair? && WF.Valid(q.fair) && WF.Valid(p.fair)
      requires RunSet(p) == RunSet(q) && BlkSet(p) == BlkSet(q)
      ensures multiset(q.fair.runnable) == multiset(p.fair.runnable) && multiset(q.fair.blocked) == multiset(p.fair.blocked)
    {
      if p != q {
        SameEntries(p.fair.runnable, q.fair.runnable, WF.Bag(q.fair));
        SameEntries(q.fair.blocked, p.fair.blocked, WF.Bag(p.fair));
      }
    }

    static lemma SameEntries(s: seq<WF.Child<TrafficClass>>, t: seq<WF.Child<TrafficClass>>, bag: multiset<WF.Child<TrafficClass>>)
      requires multiset(s) <= multiset(t) <= bag && WF.Distinct(bag) && WF.Ids(s) == WF.Ids(t)
      ensures multiset(s) == multiset(t)
    {
      forall x | x in multiset(t) ensures multiset(s)[x] == multiset(t)[x] {
        assert x in t && x.val.c in WF.Ids(t);
        var y :| y in s && y.val.c == x.val.c;
        assert y in multiset(s) && y in bag && x in bag;
      }
    }

    method AdoptAndUnblock(child: TrafficClass, pos: nat, newSt: Policy, tsc: nat, ghost S: set<TrafficClass>)
      requires TreeOk(S) && this in S && child in S && child.parent == null && Root(S) != child && pos <= |kids|
      requires SameKind(st, newSt) && !st.Leaf? && ListsOk(newSt, kids[..pos] + [child] + kids[pos..])
      requires RunSet(newSt) <= RunSet(st) + if child.blocked then {} else {child}
      modifies this`kids, child`parent, S`depth, S`st, S`blocked
      ensures TreeOk(S)
      ensures kids == old(kids)[..pos] + [child] + old(kids)[pos..] && child.parent == this
      ensures Woke(newSt, st, tsc)
      ensures child.blocked == old(child.blocked) && (forall k :: k in kids ==> k.blocked == old(k.blocked)) && FlagOk()
      ensures forall c :: c in S && c != this ==> c.st == old(c.st) || Woke(old(c.st), c.st, tsc)
    {
      hide FlagOk, ListsOk, RunSet, LinksOk, Woke;
      assert FlagOk();
      Adopt(child, pos, newSt, S);
      InsertMembers(old(kids), child, pos);
      ReadyToUnblock(child);
      KidsDeeper(S);
      ghost var _ := UnblockTowardsRoot(tsc, S);
    }
  
    // What a successful or refused AddChild leaves behind.
    twostate predicate ChildAdded(child: TrafficClass, ok: bool, tsc: nat, S: set<TrafficClass>)
      reads S, this, child
    {
      && TreeOk(S)
      && (ok ==> child.parent == this && old(child.parent) == null && RR.Elems(kids) == old(RR.Elems(kids)) + {child})
      && (forall c :: c in S && c != this ==> c.st == old(c.st) || Woke(old(c.st), c.st, tsc))
      && (!ok ==> unchanged(S))
    }

    // PriorityTrafficClass::AddChild
    method AddPriorityChild(child: TrafficClass, priority: nat, tsc: nat, ghost S: set<TrafficClass>) returns (ok: bool)
      requires TreeOk(S) && this in S && child in S && st.Priority?
      requires child.parent == null ==> Root(S) != child
      modifies this`kids, child`parent, S`depth, S`st, S`blocked
      ensures ChildAdded(child, ok, tsc, S)
      ensures ok <==> old(child.parent == null && priority !in st.prios)
      ensures ok ==> exists i :: 0 <= i <= |old(kids)| && i <= |old(st.prios)| && kids == old(kids)[..i] + [child] + old(kids)[i..]
                                 && st.Priority? && st.prios == old(st.prios)[..i] + [priority] + old(st.prios)[i..]
    {
      hide LinksOk, Root;
      if child.parent != null || priority in st.prios {
        return false;
      }
      assert FlagOk();
      var pos := |kids|;
      while pos > 0 && priority < st.prios[pos - 1]
        invariant 0 <= pos <= |kids|
        invariant forall i :: pos <= i < |kids| ==> priority < st.prios[i]
      {
        pos := pos - 1;
      }
      var prios := st.prios[..pos] + [priority] + st.prios[pos..];
      SortedInsert(st.prios, priority, pos);
      InsertMembers(kids, child, pos);
      AdoptAndUnblock(child, pos, st.(prios := prios), tsc, S);
      ok := true;
    }
  
    lemma AppendMembers(child: TrafficClass)
      ensures kids[..|kids|] + [child] + kids[|kids|..] == kids + [child]
      ensures RR.Elems(kids + [child]) == RR.Elems(kids) + {child}
    {
    }

    method AdoptRing(child: TrafficClass, tsc: nat, ghost S: set<TrafficClass>)
      requires TreeOk(S) && this in S && child in S && child.parent == null && Root(S) != child && st.RoundRobin?
      modifies this`kids, child`parent, S`depth, S`st, S`blocked
      ensures TreeOk(S) && kids == old(kids) + [child] && child.parent == this && st.RoundRobin?
      ensures st.ring == RR.Add(old(st.ring), child, old(child.blocked))
      ensures forall c :: c in S && c != this ==> c.st == old(c.st) || Woke(old(c.st), c.st, tsc)
    {
      hide FlagOk, LinksOk, RR.Valid, RR.Members, RR.Elems, Woke, Root;
      OrphanIsNew(child, S);
      assert FlagOk();
      var ring := RR.Add(st.ring, child, child.blocked);
      RingJoined(child);
      AppendMembers(child);
      AdoptAndUnblock(child, |kids|, RoundRobin(ring), tsc, S);
      RingAgain(RoundRobin(ring), tsc);
    }

    lemma RingJoined(child: TrafficClass)
      requires FlagOk() && st.RoundRobin? && child !in kids
      ensures var p := RoundRobin(RR.Add(st.ring, child, child.blocked));
        && ListsOk(p, kids + [child]) && (forall k :: k in kids + [child] ==> (k.blocked <==> k in BlkSet(p)))
        && RunSet(p) <= RunSet(st) + if child.blocked then {} else {child}
    {
      hide RR.Valid, RR.Members;
      AppendMembers(child);
      RR.AddKeeps(st.ring, child, child.blocked);
      AgreesStill(child, RoundRobin(RR.Add(st.ring, child, child.blocked)));
    }

    lemma RingAgain(p: Policy, tsc: nat)
      requires FlagOk() && p.RoundRobin? && Woke(p, st, tsc) && ListsOk(p, kids)
      requires forall k :: k in kids ==> (k.blocked <==> k in BlkSet(p))
      ensures st == p
    {
      SameSets(p);
      NobodyWoke(p, st, tsc);
    }

    // RoundRobinTrafficClass::AddChild
    method AddRingChild(child: TrafficClass, tsc: nat, ghost S: set<TrafficClass>) returns (ok: bool)
      requires TreeOk(S) && this in S && child in S && st.RoundRobin?
      requires child.parent == null ==> Root(S) != child
      modifies this`kids, child`parent, S`depth, S`st, S`blocked
      ensures ChildAdded(child, ok, tsc, S)
      ensures ok <==> old(child.parent) == null
      ensures ok ==> kids == old(kids) + [child] && st.RoundRobin? && st.ring.next == old(st.ring.next)
                     && st.ring.runnable == old(st.ring.runnable) + (if old(child.blocked) then [] else [child])
                     && st.ring.blocked == old(st.ring.blocked) + (if old(child.blocked) then [child] else [])
    {
      if child.parent != null {
        return false;
      }
      AdoptRing(child, tsc, S);
      ok := true;
    }

    lemma OrphanIsNew(child: TrafficClass, S: set<TrafficClass>)
      requires TreeOk(S) && this in S && child.parent == null
      ensures ListsOk(st, kids) && child !in kids && child !in RR.Elems(kids)
    {
      assert FlagOk();
    }

    // RateLimitTrafficClass::AddChild
    method AddLimitedChild(child: TrafficClass, tsc: nat, ghost S: set<TrafficClass>) returns (ok: bool)
      requires TreeOk(S) && this in S && child in S && st.RateLimit?
      requires child.parent == null ==> Root(S) != child
      modifies this`kids, child`parent, S`depth, S`st, S`blocked
      ensures ChildAdded(child, ok, tsc, S)
      ensures ok <==> old(child.parent == null && kids == [])
      ensures ok ==> kids == [child] && st == old(st).(bucket := old(st).bucket.(lastTsc := tsc))
    {
      if child.parent != null || kids != [] {
        return false;
      }
      OrphanIsNew(child, S);
      AppendMembers(child);
      AdoptAndUnblock(child, |kids|, st, tsc, S);
      ok := true;
    }

    // A blocked child joined the parked ones: nothing else to repair.
    twostate lemma ParkedAdoption(child: TrafficClass)
      requires old(FlagOk()) && child.blocked && child !in old(kids) && kids == old(kids) + [child]
      requires old(st).WeightedFair? && st.WeightedFair? && ListsOk(st, kids)
      requires RunSet(st) == old(RunSet(st)) && BlkSet(st) == old(BlkSet(st)) + {child}
      requires wakeupTime == old(wakeupTime) && blocked == old(blocked)
      requires forall k :: k in old(kids) ==> k.blocked == old(k.blocked)
      ensures FlagOk()
    {
      assert forall i :: 0 <= i < |old(kids)| ==> kids[i] == old(kids)[i] && kids[i].blocked == old(kids[i].blocked);
    }

    lemma AgreesStill(child: TrafficClass, p: Policy)
      requires FlagOk() && (st.WeightedFair? || st.RoundRobin?) && BlkSet(p) == BlkSet(st) + if child.blocked then {child} else {}
      requires child !in kids
      ensures forall k :: k in kids + [child] ==> (k.blocked <==> k in BlkSet(p))
    {
    }

    lemma FairAgain(p: Policy, tsc: nat)
      requires FlagOk() && p.WeightedFair? && Woke(p, st, tsc) && ListsOk(p, kids)
      requires forall k :: k in kids ==> (k.blocked <==> k in BlkSet(p))
      ensures st.WeightedFair? && multiset(st.fair.runnable) == multiset(p.fair.runnable)
      ensures multiset(st.fair.blocked) == multiset(p.fair.blocked)
    {
      SameSets(p);
      NobodyWokeFair(p, st, tsc);
    }

    method AdoptFair(child: TrafficClass, fair: WF.Fair<TrafficClass>, tsc: nat, ghost S: set<TrafficClass>)
      requires TreeOk(S) && this in S && child in S && child.parent == null && Root(S) != child && st.WeightedFair?
      requires ListsOk(st.(fair := fair), kids + [child])
      requires WF.Ids(fair.runnable) == WF.Ids(st.fair.runnable) + if child.blocked then {} else {child}
      requires WF.Ids(fair.blocked) == WF.Ids(st.fair.blocked) + if child.blocked then {child} else {}
      modifies this`kids, child`parent, S`depth, S`st, S`blocked
      ensures TreeOk(S) && kids == old(kids) + [child] && child.parent == this && child.blocked == old(child.blocked)
      ensures st.WeightedFair? && st.shared == old(st.shared)
      ensures multiset(st.fair.runnable) == multiset(fair.runnable) && multiset(st.fair.blocked) == multiset(fair.blocked)
      ensures forall c :: c in S && c != this ==> c.st == old(c.st) || Woke(old(c.st), c.st, tsc)
    {
      hide FlagOk, WF.Valid, WF.Ids, LinksOk;
      AppendMembers(child);
      if child.blocked {
        assert FlagOk();
        Adopt(child, |kids|, st.(fair := fair), S);
        ParkedAdoption(child);
      } else {
        ghost var newSt := st.(fair := fair);
        OrphanIsNew(child, S);
        assert FlagOk();
        AgreesStill(child, newSt);
        AdoptAndUnblock(child, |kids|, st.(fair := fair), tsc, S);
        FairAgain(newSt, tsc);
      }
    }

    // WeightedFairTrafficClass::AddChild
    method AddFairChild(child: TrafficClass, share: nat, tsc: nat, ghost S: set<TrafficClass>) returns (ok: bool)
      requires TreeOk(S) && this in S && child in S && st.WeightedFair?
      requires child.parent == null ==> Root(S) != child
      modifies this`kids, child`parent, S`depth, S`st, S`blocked
      ensures ChildAdded(child, ok, tsc, S)
      ensures ok <==> old(child.parent) == null && share != 0
      ensures ok ==>
        var x := Entry(WF.NextPass(old(st.fair)), WF.Share(WF.STRIDE1 / share, child));
        && kids == old(kids) + [child] && st.WeightedFair? && st.shared == old(st.shared)
        && multiset(st.fair.runnable) == multiset(old(st.fair.runnable)) + (if old(child.blocked) then multiset{} else multiset{x})
        && multiset(st.fair.blocked) == multiset(old(st.fair.blocked)) + (if old(child.blocked) then multiset{x} else multiset{})
    {
      if child.parent != null || share == 0 {
        return false;
      }
      hide FlagOk, LinksOk;
      OrphanIsNew(child, S);
      AppendMembers(child);
      var fair := WF.Add(st.fair, child, share, child.blocked);
      AdoptFair(child, fair, tsc, S);
      ok := true;
    }
  
    method UnlinkChild(child: TrafficClass, i: nat, ghost S: set<TrafficClass>)
      requires Linked(S) && this in S && i < |kids| && kids[i] == child
      modifies this`kids, child`parent
      ensures Linked(S) && kids == Without(old(kids), i) && child.parent == null
      ensures child !in kids && RR.Elems(kids) == old(RR.Elems(kids)) - {child}
    {
      WithoutMembers(kids, i);
      kids := Without(kids, i);
      child.parent := null;
      forall c | c in S ensures c.LinksOk(S) {
        assert old(c.LinksOk(S));
        if c == this {
          forall j | 0 <= j < |kids| ensures kids[j] in S && kids[j].parent == this {
            assert kids[j] in kids;
          }
        } else {
          forall j | 0 <= j < |c.kids| ensures c.kids[j] in S && c.kids[j].parent == c {
            assert c.kids[j] != child;
          }
        }
      }
    }

    method Disown(child: TrafficClass, i: nat, newSt: Policy, ghost S: set<TrafficClass>)
      requires TreeOk(S) && this in S && i < |kids| && kids[i] == child
      modifies this`kids, this`st, child`parent
      ensures Linked(S) && FlaggedBut(S, this)
      ensures st == newSt && kids == Without(old(kids), i) && child.parent == null
      ensures RR.Elems(kids) == old(RR.Elems(kids)) - {child}
    {
      hide FlagOk;
      UnlinkChild(child, i, S);
      st := newSt;
      forall c | c in S && c != this ensures c.FlagOk() {
        assert old(c.FlagOk());
      }
    }
  
    // The i-th child left; the flags of the remaining children did not change.
    twostate predicate LeftBehind(i: nat)
      reads this, kids
    {
      && i < |old(kids)| && kids == Without(old(kids), i) && SameKind(old(st), st)
      && wakeupTime == old(wakeupTime) && blocked == old(blocked)
      && forall j :: 0 <= j < |kids| ==> kids[j].blocked == old(kids[if j < i then j else j + 1].blocked)
    }

    twostate lemma PriorityLeft(i: nat)
      requires old(FlagOk()) && LeftBehind(i) && st.Priority? && ListsOk(st, kids)
      requires st.firstRunnable == if old(st.firstRunnable) > i then old(st.firstRunnable) - 1 else old(st.firstRunnable)
      ensures BeforeBlock(null)
    {
    }

    twostate lemma ListLeft(i: nat)
      requires old(FlagOk()) && LeftBehind(i) && (st.WeightedFair? || st.RoundRobin?) && ListsOk(st, kids)
      requires NoDup(old(kids)) && BlkSet(st) == old(BlkSet(st)) - {old(kids)[i]}
      ensures old(kids[i].blocked) ==> FlagOk()
      ensures !old(kids[i].blocked) ==> BeforeBlock(null)
    {
      hide WF.Valid, RR.Valid, RunSet;
      forall j | 0 <= j < |kids| ensures kids[j].blocked <==> kids[j] in BlkSet(st) {
        assert kids[j] == old(kids)[if j < i then j else j + 1];
      }
      if old(HasOpenKid()) && old(kids[i].blocked) {
        var j :| 0 <= j < |old(kids)| && !old(kids[j].blocked);
        assert kids[if j < i then j else j - 1] == old(kids)[j];
      }
    }

    // The i-th child is gone and each remaining one keeps what the policy knows of
    // it: its priority, its pass or penalty and stride, or its place in the cycle.
    static ghost predicate OthersKept(p: Policy, was: seq<TrafficClass>, i: nat, q: Policy, now: seq<TrafficClass>) {
      && i < |was| && now == Without(was, i)
      && match p
         case Priority(prios, _) => i < |prios| && q.Priority? && q.prios == Without(prios, i)
         case WeightedFair(shared, fair) => q.WeightedFair? && q.shared == shared && EntryGone(fair, q.fair, was[i])
         case RoundRobin(ring) => RR.Valid(ring) && q.RoundRobin? && RR.Removed(ring, q.ring, was[i])
         case RateLimit(_, _) => q == p
         case Leaf(_) => false
    }

    static ghost predicate EntryGone(f: WF.Fair<TrafficClass>, g: WF.Fair<TrafficClass>, child: TrafficClass) {
      || (exists e :: e in f.runnable && e.val.c == child && WF.Detached(f, g, e))
      || (exists j: nat :: WF.DetachedBlocked(f, g, j) && f.blocked[j].val.c == child)
    }

    // What RemoveChild leaves behind.
    twostate predicate ChildRemoved(child: TrafficClass, ok: bool, S: set<TrafficClass>)
      reads S, this, child
    {
      && TreeOk(S)
      && (ok <==> old(child.parent) == this)
      && (ok ==> child.parent == null && child !in kids && RR.Elems(kids) == old(RR.Elems(kids)) - {child})
      && (ok ==> exists i: nat :: i < |old(kids)| && old(kids)[i] == child && OthersKept(old(st), old(kids), i, st, kids))
      && (forall c :: c in S && c != this ==> c.st == old(c.st) || Halted(old(c.st), c.st))
      && (!ok ==> unchanged(S))
    }

    method RemovePriorityChild(child: TrafficClass, i: nat, ghost S: set<TrafficClass>)
      requires TreeOk(S) && this in S && i < |kids| && kids[i] == child && st.Priority?
      modifies this`kids, child`parent, S`st, S`blocked
      ensures TreeOk(S) && child.parent == null && RR.Elems(kids) == old(RR.Elems(kids)) - {child}
      ensures OthersKept(old(st), old(kids), i, st, kids)
      ensures forall c :: c in S && c != this ==> c.st == old(c.st) || Halted(old(c.st), c.st)
    {
      hide LinksOk, BeforeBlock;
      assert FlagOk();
      var first := if st.firstRunnable > i then st.firstRunnable - 1 else st.firstRunnable;
      var newSt := Priority(Without(st.prios, i), first);
      Disown(child, i, newSt, S);
      PriorityLeft(i);
      BlockTowardsRoot(null, S);
    }

    method RemoveFairChild(child: TrafficClass, i: nat, ghost S: set<TrafficClass>)
      requires TreeOk(S) && this in S && i < |kids| && kids[i] == child && st.WeightedFair?
      modifies this`kids, child`parent, S`st, S`blocked
      ensures TreeOk(S) && child.parent == null && RR.Elems(kids) == old(RR.Elems(kids)) - {child}
      ensures OthersKept(old(st), old(kids), i, st, kids)
      ensures forall c :: c in S && c != this ==> c.st == old(c.st) || Halted(old(c.st), c.st)
    {
      hide BeforeBlock, HasOpenKid, WF.Valid, WF.Ids;
      assert FlagOk() && LinksOk(S);
      assert child in RR.Elems(kids);
      var fair, wasRunnable := WF.Remove(st.fair, child);
      Disown(child, i, st.(fair := fair), S);
      ListLeft(i);
      if wasRunnable {
        BlockTowardsRoot(null, S);
      }
    }
  
    method RemoveRingChild(child: TrafficClass, i: nat, ghost S: set<TrafficClass>)
      requires TreeOk(S) && this in S && i < |kids| && kids[i] == child && st.RoundRobin?
      modifies this`kids, child`parent, S`st, S`blocked
      ensures TreeOk(S) && child.parent == null && RR.Elems(kids) == old(RR.Elems(kids)) - {child}
      ensures OthersKept(old(st), old(kids), i, st, kids)
      ensures forall c :: c in S && c != this ==> c.st == old(c.st) || Halted(old(c.st), c.st)
    {
      hide BeforeBlock, HasOpenKid, RR.Valid, RR.Members;
      assert FlagOk() && LinksOk(S);
      assert child in RR.Elems(kids);
      var ring, wasRunnable := RR.Remove(st.ring, child);
      Disown(child, i, RoundRobin(ring), S);
      ListLeft(i);
      if wasRunnable {
        BlockTowardsRoot(null, S);
      }
    }

    method RemoveLimitedChild(child: TrafficClass, i: nat, ghost S: set<TrafficClass>)
      requires TreeOk(S) && this in S && i < |kids| && kids[i] == child && st.RateLimit?
      modifies this`kids, child`parent, S`st, S`blocked
      ensures TreeOk(S) && child.parent == null && RR.Elems(kids) == old(RR.Elems(kids)) - {child}
      ensures OthersKept(old(st), old(kids), i, st, kids)
      ensures forall c :: c in S && c != this ==> c.st == old(c.st) || Halted(old(c.st), c.st)
    {
      assert FlagOk();
      Disown(child, i, st, S);
      BlockTowardsRoot(null, S);
    }

    // RemoveChild of every policy.
    method RemoveChild(child: TrafficClass, ghost S: set<TrafficClass>) returns (ok: bool)
      requires TreeOk(S) && this in S && child in S
      modifies this`kids, child`parent, S`st, S`blocked
      ensures ChildRemoved(child, ok, S)
    {
      if child.parent != this {
        return false;
      }
      hide FlagOk;
      assert child.LinksOk(S) && FlagOk();
      var i := 0;
      while kids[i] != child
        invariant 0 <= i < |kids| && child !in kids[..i]
        decreases |kids| - i
      {
        i := i + 1;
      }
      match st {
        case Priority(_, _) => RemovePriorityChild(child, i, S);
        case WeightedFair(_, _) => RemoveFairChild(child, i, S);
        case RoundRobin(_) => RemoveRingChild(child, i, S);
        case RateLimit(_, _) => RemoveLimitedChild(child, i, S);
        case Leaf(_) => LeafHasNoKids(S); assert false;
      }
      assert child !in RR.Elems(kids);
      ok := true;
    }

    lemma LeafHasNoKids(S: set<TrafficClass>)
      requires TreeOk(S) && this in S && st.Leaf?
      ensures kids == []
    {
      assert FlagOk();
    }
  }

  lemma WithoutMembers(kids: seq<TrafficClass>, i: nat)
    requires i < |kids| && NoDup(kids)
    ensures NoDup(Without(kids, i)) && kids[i] !in Without(kids, i)
    ensures forall k :: k in Without(kids, i) <==> k in kids && k != kids[i]
    ensures RR.Elems(Without(kids, i)) == RR.Elems(kids) - {kids[i]}
  {
    var less := Without(kids, i);
    forall j | 0 <= j < |less| ensures less[j] == kids[if j < i then j else j + 1] {}
    forall k | k in kids && k != kids[i] ensures k in less {
      var j :| 0 <= j < |kids| && kids[j] == k;
      assert less[if j < i then j else j - 1] == k;
    }
  }

  lemma SortedInsert(s: seq<nat>, x: nat, pos: nat)
    requires Sorted(s) && x !in s && pos <= |s|
    requires pos == 0 || s[pos - 1] <= x
    requires forall i :: pos <= i < |s| ==> x < s[i]
    ensures Sorted(s[..pos] + [x] + s[pos..])
  {
    var t := s[..pos] + [x] + s[pos..];
    forall i | 0 <= i < |t| ensures t[i] == if i < pos then s[i] else if i == pos then x else s[i - 1] {}
    assert pos > 0 ==> s[pos - 1] in s;
  }

  lemma InsertMembers(kids: seq<TrafficClass>, child: TrafficClass, pos: nat)
    requires pos <= |kids|
    ensures var more := kids[..pos] + [child] + kids[pos..];
      child in more && forall k :: k in more <==> k in kids || k == child
  {
    var more := kids[..pos] + [child] + kids[pos..];
    assert kids == kids[..pos] + kids[pos..];
    assert more[pos] == child;
  }

  lemma PathOnce(path: seq<TrafficClass>, k: nat)
    requires Path(path) && k < |path|
    ensures forall j :: 0 <= j < |path| && j != k ==> path[j] != path[k]
  {
  }

  lemma PathUp(path: seq<TrafficClass>, k: nat)
    requires Path(path) && k < |path|
    ensures if path[k].parent == null then k == 0 else k > 0 && path[k].parent == path[k - 1]
  {
    if k > 0 {
      assert path[k].parent == path[k - 1];
    }
  }

  // The classes from the k-th of the path down have been charged u, each having
  // done its policy's accounting for the next one below; those above are as at
  // the start.
  ghost predicate Progress(path: seq<TrafficClass>, k: nat, was: seq<Policy>, used: seq<Usage>, u: Usage, tsc: nat)
    requires |was| == |used| == |path| && k <= |path|
    reads path`st, path`blocked, path`usage, path`wakeupTime
  {
    && (forall j :: 0 <= j < k ==> path[j].st == was[j] && path[j].usage == used[j])
    && (forall j :: 0 <= j < k && j < |path| - 1 ==> !path[j].blocked)
    && (forall j :: k <= j < |path| ==> path[j].usage == used[j].Plus(u))
    && (forall j :: k <= j < |path| - 1 ==> Finished(was[j], path[j].st, path[j + 1], path[j + 1].blocked, u, tsc, path[j].wakeupTime))
  }

  // The j-th class of the path, in state was, picks the next one.
  ghost predicate PickedAt(path: seq<TrafficClass>, was: seq<Policy>, j: nat)
    requires j + 1 < |path| == |was|
    reads path`kids
  {
    Picks(was[j], path[j].kids, path[j + 1])
  }

  // Nothing the scheduler may write in a class changed.
  twostate predicate Untouched(c: TrafficClass)
    reads c
  {
    && c.st == old(c.st) && c.blocked == old(c.blocked) && c.usage == old(c.usage)
    && c.wakeupTime == old(c.wakeupTime) && c.cntThrottled == old(c.cntThrottled)
  }
}
