/** From scheduler rounds to the rate bound: what the rounds do to a rate limit of
    the tree is a run of its token bucket, and when nothing below the limit sleeps
    on its own the rate bound holds for all that its subtree uses. */
module ScheduledRates {
  import opened TrafficClasses
  import opened Schedulers
  import TB = TokenBucket

  // What one round does to a rate limit: it is woken, and if it lies on the
  // descended path it is charged the work done, at the end of the round.
  datatype LimitRound = LimitRound(wakes: seq<TB.Event>, charged: bool, work: nat, start: nat, now: nat)

  function EventsOf(r: LimitRound): seq<TB.Event> {
    r.wakes + if r.charged then [TB.Charged(r.work, r.now)] else []
  }

  lemma OneEvent(s: TB.Limiter, ev: TB.Event)
    ensures TB.Final(s, [ev]) == TB.Next(s, ev) && (TB.EnabledAll(s, [ev]) <==> TB.Enabled(s, ev))
    ensures TB.TotalConsumed([ev]) == TB.Consumed(ev) && TB.TotalThrottles(s, [ev]) == TB.Throttles(s, ev)
  {
    hide TB.Next, TB.Enabled, TB.Throttles, TB.Consumed;
    assert [ev][1..] == [];
    NoEvents(TB.Next(s, ev));
  }

  lemma NoEvents(s: TB.Limiter)
    ensures TB.EnabledAll(s, []) && TB.TotalConsumed([]) == 0 && TB.TotalThrottles(s, []) == 0 && TB.Final(s, []) == s
  {
  }

  // What the round did to rate limit c after the waking.
  lemma AfterWaking(s: Scheduler, leaf: TrafficClass?, path: seq<TrafficClass>, k: Waking, u: Usage, now: nat, c: TrafficClass)
    requires s.RoundOf(leaf, path, k, u, now) && c in s.S && k.woken[c].RateLimit?
    requires leaf != null ==> leaf in k.woken && k.woken[leaf].Leaf?
    ensures c.st.RateLimit? && c.st.limited == k.woken[c].limited
    ensures if leaf != null && c in path then
              var acc := TB.Account(k.woken[c].bucket, TB.ToWorkUnits(u.Of(c.st.limited)), now);
              c.st.bucket == acc.bucket && c.wakeupTime == acc.wakeup && k.slept[c] == 0
            else c.st == k.woken[c] && c.wakeupTime == k.slept[c]
  {
    hide Path, Picks, SomeLeafRunnable, TB.Account;
    if leaf == null {
      assert s.Policies()[c] == k.woken[c] && s.WakeupTimes()[c] == k.slept[c];
    } else if c in path {
      var j :| 0 <= j < |path| && path[j] == c;
      assert c != leaf && j < |path| - 1;
      assert Finished(k.woken[path[j]], path[j].st, path[j + 1], path[j + 1].blocked, u, now, path[j].wakeupTime);
    }
  }

  // A round of the scheduler, seen from rate limit c. Nested limits may resume it.
  lemma RoundIsLimited(s: Scheduler, leaf: TrafficClass?, path: seq<TrafficClass>, k: Waking, was: map<TrafficClass, Policy>,
                       w: map<TrafficClass, nat>, u: Usage, start: nat, now: nat, c: TrafficClass) returns (r: LimitRound)
    requires Awoken(k, was, w, s.S) && s.RoundOf(leaf, path, k, u, now) && c in s.S && was[c].RateLimit?
    requires leaf != null ==> leaf in k.woken && k.woken[leaf].Leaf?
    ensures c.st.RateLimit? && c.st.limited == was[c].limited
    ensures TB.Final(TB.Limiter(was[c].bucket, w[c]), EventsOf(r)) == TB.Limiter(c.st.bucket, c.wakeupTime)
    ensures r.wakes == k.evs[c] && (r.charged <==> leaf != null && c in path) && r.start == start && r.now == now
    ensures r.work == TB.ToWorkUnits(u.Of(was[c].limited)) && (r.charged ==> k.slept[c] == 0)
  {
    hide Trails, OwnWakes, Linked, TB.Final;
    var l := TB.Limiter(was[c].bucket, w[c]);
    assert LimitRun(was[c], w[c], k.evs[c], k.woken[c], k.slept[c]);
    hide Awoken, LimitRun;
    AfterWaking(s, leaf, path, k, u, now, c);
    r := LimitRound(k.evs[c], leaf != null && c in path, TB.ToWorkUnits(u.Of(was[c].limited)), start, now);
    hide Scheduler.RoundOf;
    if r.charged {
      var ev := TB.Charged(r.work, now);
      TB.FinalJoins(l, r.wakes, [ev]);
      OneEvent(TB.Limiter(k.woken[c].bucket, k.slept[c]), ev);
    } else {
      assert EventsOf(r) == r.wakes;
    }
  }

  // ---- a limit below which nobody sleeps ----

  // The limit is touched by its own wakeup only, and is charged when awake.
  ghost predicate FitsAlone(s: TB.Limiter, r: LimitRound) {
    && r.start <= r.now && 0 < r.now < TB.TSC_RANGE
    && r.wakes == (if 0 < s.wakeup < r.start then [TB.Woke] else [])
    && (r.charged ==> s.wakeup == 0 || s.wakeup < r.start)
  }

  lemma RoundEnabled(s: TB.Limiter, r: LimitRound)
    requires FitsAlone(s, r) && s.bucket.lastTsc <= r.start
    ensures TB.EnabledAll(s, EventsOf(r)) && TB.Final(s, EventsOf(r)).bucket.lastTsc <= r.now
    ensures TB.TotalConsumed(EventsOf(r)) == if r.charged then r.work else 0
    ensures TB.TotalThrottles(s, EventsOf(r)) <= 1
  {
    hide TB.Final, TB.EnabledAll, TB.TotalConsumed, TB.TotalThrottles;
    var more := if r.charged then [TB.Charged(r.work, r.now)] else [];
    NoEvents(s);
    if r.wakes != [] { OneEvent(s, TB.Woke); }
    var t := TB.Final(s, r.wakes);
    NoEvents(t);
    if r.charged { OneEvent(t, TB.Charged(r.work, r.now)); }
    EnabledJoins(s, r.wakes, more);
    TB.FinalJoins(s, r.wakes, more);
  }

  // Rounds one after the other, each starting when the last one ended.
  ghost predicate FitAllAlone(s: TB.Limiter, rs: seq<LimitRound>, start: nat)
    decreases |rs|
  {
    rs == [] || (rs[0].start == start && FitsAlone(s, rs[0]) && FitAllAlone(TB.Final(s, EventsOf(rs[0])), rs[1..], rs[0].now))
  }

  ghost function AllEvents(rs: seq<LimitRound>): seq<TB.Event> {
    if rs == [] then [] else EventsOf(rs[0]) + AllEvents(rs[1..])
  }

  ghost function Work(rs: seq<LimitRound>): nat {
    if rs == [] then 0 else (if rs[0].charged then rs[0].work else 0) + Work(rs[1..])
  }

  lemma {:induction false} EnabledJoins(s: TB.Limiter, evs: seq<TB.Event>, more: seq<TB.Event>)
    requires TB.EnabledAll(s, evs) && TB.EnabledAll(TB.Final(s, evs), more)
    ensures TB.EnabledAll(s, evs + more) && TB.TotalConsumed(evs + more) == TB.TotalConsumed(evs) + TB.TotalConsumed(more)
    ensures TB.TotalThrottles(s, evs + more) == TB.TotalThrottles(s, evs) + TB.TotalThrottles(TB.Final(s, evs), more)
    decreases |evs|
  {
    hide TB.Next, TB.Enabled, TB.Throttles;
    if evs == [] {
      assert evs + more == more;
    } else {
      assert (evs + more)[1..] == evs[1..] + more;
      EnabledJoins(TB.Next(s, evs[0]), evs[1..], more);
    }
  }

  // Any number of rounds are a run of the token bucket in which every event is
  // enabled: the clock never goes back and a throttled limit is not charged.
  lemma {:induction false} RoundsEnabled(s: TB.Limiter, rs: seq<LimitRound>, start: nat)
    requires FitAllAlone(s, rs, start) && s.bucket.lastTsc <= start
    ensures TB.EnabledAll(s, AllEvents(rs)) && TB.TotalConsumed(AllEvents(rs)) == Work(rs)
    ensures TB.TotalThrottles(s, AllEvents(rs)) <= |rs|
    decreases |rs|
  {
    hide TB.Final, TB.EnabledAll, TB.TotalConsumed, TB.TotalThrottles, FitsAlone, EventsOf;
    if rs == [] {
      NoEvents(s);
    } else {
      RoundEnabled(s, rs[0]);
      var t := TB.Final(s, EventsOf(rs[0]));
      RoundsEnabled(t, rs[1..], rs[0].now);
      EnabledJoins(s, EventsOf(rs[0]), AllEvents(rs[1..]));
    }
  }

  // The rate bound over rounds.
  lemma RateOverRounds(s: TB.Limiter, rs: seq<LimitRound>, start: nat)
    requires FitAllAlone(s, rs, start) && s.bucket.lastTsc <= start && s.bucket.limit > 0
    ensures var t := TB.Final(s, AllEvents(rs));
      Work(rs) + t.bucket.tokens
      <= s.bucket.tokens + s.bucket.limit * (TB.Horizon(t) - TB.Horizon(s)) + (s.bucket.limit - 1) * |rs|
    ensures var t := TB.Final(s, AllEvents(rs));
      Work(rs) + t.bucket.tokens
      >= s.bucket.tokens + s.bucket.limit * (TB.Horizon(t) - TB.Horizon(s)) - TB.TotalWasted(s, AllEvents(rs))
  {
    hide TB.Final, TB.EnabledAll, TB.TotalConsumed, TB.TotalThrottles, TB.TotalWasted, TB.Horizon, FitAllAlone, AllEvents, Work;
    RoundsEnabled(s, rs, start);
    TB.RateBound(s, AllEvents(rs));
    TB.RateReached(s, AllEvents(rs));
    MulMonotone(s.bucket.limit - 1, TB.TotalThrottles(s, AllEvents(rs)), |rs|);
  }

  lemma MulMonotone(k: nat, a: nat, b: nat)
    requires a <= b
    ensures k * a <= k * b
  {
  }

  // ---- a scheduler that runs ----

  // What the task of a round did, and the clock after it.
  datatype Job = Job(packets: nat, bits: nat, now: nat)

  // What a job that began at start uses of a resource.
  function Amount(r: Resource, job: Job, start: nat): nat
    requires start <= job.now
  {
    match r
    case Count => 1
    case Cycle => job.now - start
    case Packet => job.packets
    case Bit => job.bits
  }

  ghost predicate InTime(jobs: seq<Job>, start: nat) {
    && (forall i :: 0 <= i < |jobs| ==> start <= jobs[i].now && 0 < jobs[i].now < TB.TSC_RANGE)
    && (forall i, j :: 0 <= i < j < |jobs| ==> jobs[i].now <= jobs[j].now)
  }

  // Below rate limit c there is no other, and nobody sleeps.
  ghost predicate Alone(s: Scheduler, c: TrafficClass)
    reads s`S, s.S
  {
    && Linked(s.S) && c in s.S && c.st.RateLimit? && c.st.bucket.limit > 0
    && forall d :: d in s.S && Above(c, d, s.S) ==> !d.st.RateLimit? && d.wakeupTime == 0
  }

  ghost function LimiterOf(c: TrafficClass): TB.Limiter
    requires c.st.RateLimit?
    reads c
  {
    TB.Limiter(c.st.bucket, c.wakeupTime)
  }

  lemma {:induction false} TrailKeepsKind(tr: seq<Policy>, p: Policy, q: Policy)
    requires Trail(tr, p, q)
    ensures q.RateLimit? <==> p.RateLimit?
    decreases |tr|
  {
    if |tr| > 1 {
      assert TrailStep(tr, 0) && WokeSome(tr[0], tr[1]);
      forall k | 0 <= k < |tr[1..]| - 1 ensures TrailStep(tr[1..], k) { assert TrailStep(tr, k + 1); }
      TrailKeepsKind(tr[1..], tr[1], q);
    }
  }

  // A class that is no rate limit stays none and awake.
  lemma StaysQuiet(s: Scheduler, leaf: TrafficClass?, path: seq<TrafficClass>, k: Waking, was: map<TrafficClass, Policy>,
                   w: map<TrafficClass, nat>, u: Usage, start: nat, now: nat, d: TrafficClass)
    requires Awoken(k, was, w, s.S) && s.OnTime(k.slept, w, start) && s.RoundOf(leaf, path, k, u, now)
    requires leaf != null ==> leaf in k.woken && leaf.st == k.woken[leaf] && leaf.wakeupTime == 0
    requires d in s.S && !was[d].RateLimit? && w[d] == 0
    ensures !d.st.RateLimit? && d.wakeupTime == 0
  {
    hide Path, Picks, SomeLeafRunnable, OwnWakes, Trail, Above, Limits;
    TrailKeepsKind(k.trails[d], was[d], k.woken[d]);
    if leaf == null {
      assert s.Policies()[d] == k.woken[d] && s.WakeupTimes()[d] == k.slept[d];
    } else if d in path && d != leaf {
      var j :| 0 <= j < |path| && path[j] == d;
      assert Finished(k.woken[path[j]], path[j].st, path[j + 1], path[j + 1].blocked, u, now, path[j].wakeupTime);
    }
  }

  lemma AwokenLinked(k: Waking, was: map<TrafficClass, Policy>, w: map<TrafficClass, nat>, S: set<TrafficClass>)
    requires Awoken(k, was, w, S)
    ensures Linked(S) && was.Keys == w.Keys == S
  {
  }

  // Nothing below c gets to sleep in a round.
  lemma StaysAlone(s: Scheduler, leaf: TrafficClass?, path: seq<TrafficClass>, k: Waking, was: map<TrafficClass, Policy>,
                   w: map<TrafficClass, nat>, u: Usage, start: nat, now: nat, c: TrafficClass)
    requires Awoken(k, was, w, s.S) && s.OnTime(k.slept, w, start) && s.RoundOf(leaf, path, k, u, now)
    requires leaf != null ==> leaf in k.woken && leaf.st == k.woken[leaf] && leaf.wakeupTime == 0
    requires c in s.S && c.st.RateLimit? && c.st.bucket.limit > 0
    requires forall d :: d in s.S && Above(c, d, s.S) ==> !was[d].RateLimit? && w[d] == 0
    ensures Alone(s, c)
  {
    hide Awoken, Scheduler.RoundOf, Scheduler.OnTime, Linked, Above;
    AwokenLinked(k, was, w, s.S);
    forall d | d in s.S && Above(c, d, s.S) ensures !d.st.RateLimit? && d.wakeupTime == 0 {
      StaysQuiet(s, leaf, path, k, was, w, u, start, now, d);
    }
  }

  // One round, seen from a rate limit that is alone.
  lemma RoundAlone(s: Scheduler, leaf: TrafficClass?, path: seq<TrafficClass>, k: Waking, was: map<TrafficClass, Policy>,
                   w: map<TrafficClass, nat>, u: Usage, start: nat, now: nat, c: TrafficClass) returns (r: LimitRound)
    requires Awoken(k, was, w, s.S) && s.OnTime(k.slept, w, start) && s.RoundOf(leaf, path, k, u, now)
    requires leaf != null ==> leaf in k.woken && k.woken[leaf].Leaf?
    requires c in s.S && was[c].RateLimit? && Undisturbed(c, w, s.S) && start <= now && 0 < now < TB.TSC_RANGE
    ensures c.st.RateLimit? && c.st.limited == was[c].limited
    ensures FitsAlone(TB.Limiter(was[c].bucket, w[c]), r) && r.start == start && r.now == now
    ensures TB.Final(TB.Limiter(was[c].bucket, w[c]), EventsOf(r)) == LimiterOf(c)
    ensures (r.charged <==> leaf != null && c in path) && r.work == TB.ToWorkUnits(u.Of(was[c].limited))
  {
    hide Scheduler.RoundOf, Awoken, TB.Final;
    r := RoundIsLimited(s, leaf, path, k, was, w, u, start, now, c);
    OwnWakeOnly(s, k, was, w, c);
  }

  lemma OwnWakeOnly(s: Scheduler, k: Waking, was: map<TrafficClass, Policy>, w: map<TrafficClass, nat>, c: TrafficClass)
    requires Awoken(k, was, w, s.S) && c in s.S && Undisturbed(c, w, s.S)
    ensures k.evs[c] == if w[c] != 0 && k.slept[c] == 0 then [TB.Woke] else []
    ensures k.slept.Keys == w.Keys == was.Keys == k.woken.Keys == s.S
  {
    hide Trails, Linked, Undisturbed, LimitRun;
  }

  ghost function EndOf(rs: seq<LimitRound>, start: nat): nat {
    if rs == [] then start else rs[|rs| - 1].now
  }

  lemma {:induction false} RoundsGrow(s: TB.Limiter, rs: seq<LimitRound>, start: nat, r: LimitRound)
    requires FitAllAlone(s, rs, start) && r.start == EndOf(rs, start) && FitsAlone(TB.Final(s, AllEvents(rs)), r)
    ensures FitAllAlone(s, rs + [r], start) && Work(rs + [r]) == Work(rs) + if r.charged then r.work else 0
    ensures TB.Final(s, AllEvents(rs + [r])) == TB.Final(TB.Final(s, AllEvents(rs)), EventsOf(r))
    decreases |rs|
  {
    hide FitsAlone, EventsOf, TB.Final;
    if rs == [] {
      NoEvents(s);
      assert [r][1..] == [] && [] + [r] == [r];
      assert AllEvents([r]) == EventsOf(r) + AllEvents([]) == EventsOf(r);
      assert Work([r]) == (if r.charged then r.work else 0) + Work([]);
      assert FitAllAlone(TB.Final(s, EventsOf(r)), [], r.now);
    } else {
      var t := TB.Final(s, EventsOf(rs[0]));
      assert (rs + [r])[1..] == rs[1..] + [r];
      TB.FinalJoins(s, EventsOf(rs[0]), AllEvents(rs[1..]));
      TB.FinalJoins(s, EventsOf(rs[0]), AllEvents(rs[1..] + [r]));
      RoundsGrow(t, rs[1..], rs[0].now, r);
    }
  }

  lemma UsageGrows(u: Usage, v: Usage, r: Resource)
    ensures TB.ToWorkUnits(u.Plus(v).Of(r)) == TB.ToWorkUnits(u.Of(r)) + TB.ToWorkUnits(v.Of(r))
  {
  }

  // One round, with what it did to rate limit c.
  method OneRound(s: Scheduler, job: Job, ghost c: TrafficClass) returns (ghost r: LimitRound)
    requires s.Valid() && Alone(s, c) && s.checkpoint <= job.now && 0 < job.now < TB.TSC_RANGE
    modifies s`checkpoint, s`cntIdle, s`cyclesIdle, s.wakeupQueue
    modifies s.S`wakeupTime, s.S`st, s.S`blocked, s.S`usage, s.S`cntThrottled
    ensures s.Valid() && Alone(s, c) && s.checkpoint == job.now && c.st.limited == old(c.st.limited)
    ensures FitsAlone(old(LimiterOf(c)), r) && r.start == old(s.checkpoint) && r.now == job.now
    ensures TB.Final(old(LimiterOf(c)), EventsOf(r)) == LimiterOf(c)
    ensures r.work == TB.USAGE_AMPLIFIER * Amount(old(c.st.limited), job, old(s.checkpoint))
    ensures TB.ToWorkUnits(c.usage.Of(c.st.limited)) ==
            TB.ToWorkUnits(old(c.usage.Of(c.st.limited))) + if r.charged then r.work else 0
  {
    hide Scheduler.Valid, Awoken, Scheduler.RoundOf, Scheduler.OnTime, FitsAlone, TB.Final, TB.ToWorkUnits, Linked;
    ghost var was, w, used, start := s.Policies(), s.WakeupTimes(), s.Usages(), s.checkpoint;
    var leaf;
    ghost var path, k;
    leaf, path, k := s.ScheduleOnce(job.packets, job.bits, job.now);
    ghost var u := Usage(1, job.now - start, job.packets, job.bits);
    LeafKind(s, leaf, path, k, u, job.now);
    r := RoundAlone(s, leaf, path, k, was, w, u, start, job.now, c);
    LimitKept(was[c], w[c], c, EventsOf(r));
    StaysAlone(s, leaf, path, k, was, w, u, start, job.now, c);
    UsageGrows(used[c], u, was[c].limited);
    JobUses(was[c].limited, job, start);
  }

  lemma JobUses(r: Resource, job: Job, start: nat)
    requires start <= job.now
    ensures TB.ToWorkUnits(Usage(1, job.now - start, job.packets, job.bits).Of(r)) == TB.USAGE_AMPLIFIER * Amount(r, job, start)
  {
  }

  ghost predicate DidJob(rs: seq<LimitRound>, jobs: seq<Job>, r: Resource, start: nat, i: nat)
    requires i < |rs| <= |jobs|
  {
    && rs[i].now == jobs[i].now && rs[i].start == (if i == 0 then start else rs[i - 1].now) && rs[i].start <= jobs[i].now
    && rs[i].work == TB.USAGE_AMPLIFIER * Amount(r, jobs[i], rs[i].start)
  }

  // The rounds are those of the jobs, one after the other.
  ghost predicate DidJobs(rs: seq<LimitRound>, jobs: seq<Job>, r: Resource, start: nat) {
    |rs| <= |jobs| && forall i :: 0 <= i < |rs| ==> DidJob(rs, jobs, r, start, i)
  }

  lemma DidOneMore(rs: seq<LimitRound>, jobs: seq<Job>, res: Resource, start: nat, r: LimitRound)
    requires DidJobs(rs, jobs, res, start) && |rs| < |jobs| && r.now == jobs[|rs|].now && r.start == EndOf(rs, start) && r.start <= r.now
    requires r.work == TB.USAGE_AMPLIFIER * Amount(res, jobs[|rs|], r.start)
    ensures DidJobs(rs + [r], jobs, res, start)
  {
    hide Amount;
    forall i | 0 <= i < |rs + [r]| ensures DidJob(rs + [r], jobs, res, start, i) {
      assert i < |rs| ==> DidJob(rs, jobs, res, start, i);
    }
  }

  lemma LeafKind(s: Scheduler, leaf: TrafficClass?, path: seq<TrafficClass>, k: Waking, u: Usage, now: nat)
    requires s.RoundOf(leaf, path, k, u, now) && (leaf != null ==> leaf in k.woken && leaf.st == k.woken[leaf])
    ensures leaf != null ==> k.woken[leaf].Leaf?
  {
  }

  lemma LimitKept(p: Policy, w: nat, c: TrafficClass, evs: seq<TB.Event>)
    requires p.RateLimit? && c.st.RateLimit? && TB.Final(TB.Limiter(p.bucket, w), evs) == LimiterOf(c)
    ensures c.st.bucket.limit == p.bucket.limit
  {
    FinalKeepsLimit(TB.Limiter(p.bucket, w), evs);
  }

  lemma {:induction false} FinalKeepsLimit(s: TB.Limiter, evs: seq<TB.Event>)
    ensures TB.Final(s, evs).bucket.limit == s.bucket.limit
    decreases |evs|
  {
    if evs != [] { FinalKeepsLimit(TB.Next(s, evs[0]), evs[1..]); }
  }

  // The scheduler runs any number of rounds. All that the subtree of rate limit c
  // used of the limited resource, in work units, stays within the tokens it had,
  // its limit for the cycles covered, and limit - 1 for each round.
  method RunRounds(s: Scheduler, jobs: seq<Job>, ghost c: TrafficClass) returns (ghost rs: seq<LimitRound>)
    requires s.Valid() && Alone(s, c) && InTime(jobs, s.checkpoint) && c.st.bucket.lastTsc <= s.checkpoint
    modifies s`checkpoint, s`cntIdle, s`cyclesIdle, s.wakeupQueue
    modifies s.S`wakeupTime, s.S`st, s.S`blocked, s.S`usage, s.S`cntThrottled
    ensures s.Valid() && Alone(s, c) && c.st.limited == old(c.st.limited)
    ensures var r, l, t := c.st.limited, old(LimiterOf(c)), LimiterOf(c);
      TB.ToWorkUnits(c.usage.Of(r)) + t.bucket.tokens
      <= TB.ToWorkUnits(old(c.usage).Of(r)) + l.bucket.tokens
         + l.bucket.limit * (TB.Horizon(t) - TB.Horizon(l)) + (l.bucket.limit - 1) * |jobs|
    ensures var r, l, t := c.st.limited, old(LimiterOf(c)), LimiterOf(c);
      TB.ToWorkUnits(c.usage.Of(r)) + t.bucket.tokens
      >= TB.ToWorkUnits(old(c.usage).Of(r)) + l.bucket.tokens
         + l.bucket.limit * (TB.Horizon(t) - TB.Horizon(l)) - TB.TotalWasted(l, AllEvents(rs))
    ensures |rs| == |jobs| && DidJobs(rs, jobs, c.st.limited, old(s.checkpoint))
    ensures TB.ToWorkUnits(c.usage.Of(c.st.limited)) == TB.ToWorkUnits(old(c.usage).Of(c.st.limited)) + Work(rs)
  {
    hide Scheduler.Valid, Alone, FitsAlone, FitAllAlone, DidJobs, Amount, TB.Final, TB.ToWorkUnits, TB.TotalWasted, TB.Horizon, EventsOf, AllEvents, Work;
    AloneLimit(s, c);
    ghost var first, start, res, used := LimiterOf(c), s.checkpoint, c.st.limited, c.usage;
    rs := [];
    NoRounds(first, start);
    assert DidJobs(rs, jobs, res, start) by { NoJobs(jobs, res, start); }
    for i := 0 to |jobs|
      invariant s.Valid() && Alone(s, c) && c.st.RateLimit? && c.st.limited == res && |rs| == i
      invariant FitAllAlone(first, rs, start) && s.checkpoint == EndOf(rs, start) && TB.Final(first, AllEvents(rs)) == LimiterOf(c)
      invariant (i < |jobs| ==> s.checkpoint <= jobs[i].now) && DidJobs(rs, jobs, res, start)
      invariant TB.ToWorkUnits(c.usage.Of(res)) == TB.ToWorkUnits(used.Of(res)) + Work(rs)
    {
      ghost var r := OneRound(s, jobs[i], c);
      RoundsGrow(first, rs, start, r);
      AloneLimit(s, c);
      DidOneMore(rs, jobs, res, start, r);
      rs := rs + [r];
    }
    RateOverRounds(first, rs, start);
  }

  lemma NoJobs(jobs: seq<Job>, r: Resource, start: nat)
    ensures DidJobs([], jobs, r, start)
  {
  }

  lemma NoRounds(s: TB.Limiter, start: nat)
    ensures FitAllAlone(s, [], start) && TB.Final(s, AllEvents([])) == s && Work([]) == 0
  {
  }

  lemma AloneLimit(s: Scheduler, c: TrafficClass)
    requires Alone(s, c)
    ensures c.st.RateLimit? && c.st.bucket.limit > 0
  {
  }
}
