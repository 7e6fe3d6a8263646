/** The token bucket of a rate-limit traffic class. Amounts are in work units,
    2^32 per unit of the limited resource; time is in cycles. */
module TokenBucket {

  const USAGE_AMPLIFIER: nat := 0x1_0000_0000
  const TSC_RANGE: nat := 0x1_0000_0000_0000_0000

  function ToWorkUnits(x: nat): nat {
    x * USAGE_AMPLIFIER
  }

  datatype Bucket = Bucket(limit: nat, maxBurst: nat, tokens: nat, lastTsc: nat)

  // wakeup is 0 when the class is not put to sleep.
  datatype Accounted = Accounted(bucket: Bucket, throttled: bool, wakeup: nat)

  // tsc - last_tsc_ in unsigned 64-bit arithmetic.
  function Elapsed(tsc: nat, last: nat): nat {
    (tsc - last) % TSC_RANGE
  }

  // FinishAndAccountTowardsRoot on the bucket.
  function Account(b: Bucket, consumed: nat, tsc: nat): Accounted {
    var tokens := b.tokens + b.limit * Elapsed(tsc, b.lastTsc);
    if tokens < consumed then
      Accounted(b.(tokens := 0, lastTsc := tsc), true,
                if b.limit == 0 then 0 else tsc + (consumed - tokens) / b.limit)
    else
      var left := tokens - consumed;
      Accounted(b.(tokens := if left < b.maxBurst then left else b.maxBurst, lastTsc := tsc), false, 0)
  }

  // UnblockTowardsRoot on the bucket.
  function Resume(b: Bucket, tsc: nat): Bucket {
    b.(lastTsc := tsc)
  }

  // ---- the rate over whole runs --------------------------------------------

  // A limiter with its pending wakeup time, 0 when awake.
  datatype Limiter = Limiter(bucket: Bucket, wakeup: nat)

  // Charged: its child ran. Woke: the scheduler's wakeup. Resumed: a child was
  // attached or unblocked below.
  datatype Event = Charged(consumed: nat, tsc: nat) | Woke | Resumed(tsc: nat)

  // Charged only when awake; the clock does not run backwards.
  ghost predicate Enabled(s: Limiter, ev: Event) {
    match ev
    case Charged(_, tsc) => s.wakeup == 0 && s.bucket.lastTsc <= tsc < TSC_RANGE && tsc > 0
    case Woke => s.wakeup != 0
    case Resumed(tsc) => s.wakeup == 0 ==> s.bucket.lastTsc <= tsc
  }

  function Next(s: Limiter, ev: Event): Limiter {
    match ev
    case Charged(consumed, tsc) =>
      var acc := Account(s.bucket, consumed, tsc);
      Limiter(acc.bucket, acc.wakeup)
    case Woke => Limiter(Resume(s.bucket, s.wakeup), 0)
    case Resumed(tsc) => s.(bucket := Resume(s.bucket, tsc))
  }

  function Consumed(ev: Event): nat {
    if ev.Charged? then ev.consumed else 0
  }

  function Throttles(s: Limiter, ev: Event): nat {
    if ev.Charged? && Account(s.bucket, ev.consumed, ev.tsc).throttled then 1 else 0
  }

  // The time up to which the limiter's tokens have been granted or spent.
  function Horizon(s: Limiter): nat {
    if s.wakeup != 0 then s.wakeup else s.bucket.lastTsc
  }

  // Tokens in hand, less everything granted up to the horizon.
  function Potential(s: Limiter): int {
    s.bucket.tokens - s.bucket.limit * Horizon(s)
  }

  lemma GrantSplits(limit: nat, last: nat, tsc: nat, wait: nat)
    requires last <= tsc
    ensures limit * (tsc - last) == limit * tsc - limit * last
    ensures limit * (tsc + wait) == limit * tsc + limit * wait
  {
  }

  lemma WaitCovers(owed: nat, limit: nat)
    requires limit > 0
    ensures owed <= limit * (owed / limit) + (limit - 1)
  {
  }

  // One step: what is consumed comes out of the potential, up to the remainder
  // forgiven when a wait is rounded down to whole cycles.
  lemma PotentialStep(s: Limiter, ev: Event)
    requires s.bucket.limit > 0 && Enabled(s, ev)
    ensures Potential(Next(s, ev)) + Consumed(ev) <= Potential(s) + (s.bucket.limit - 1) * Throttles(s, ev)
    ensures Next(s, ev).bucket.limit == s.bucket.limit && Next(s, ev).bucket.maxBurst == s.bucket.maxBurst
    ensures s.bucket.tokens <= s.bucket.maxBurst ==> Next(s, ev).bucket.tokens <= s.bucket.maxBurst
  {
    var b := s.bucket;
    match ev {
      case Charged(consumed, tsc) =>
        assert Elapsed(tsc, b.lastTsc) == tsc - b.lastTsc;
        var tokens := b.tokens + b.limit * (tsc - b.lastTsc);
        GrantSplits(b.limit, b.lastTsc, tsc, if tokens < consumed then (consumed - tokens) / b.limit else 0);
        if tokens < consumed {
          WaitCovers(consumed - tokens, b.limit);
          assert Next(s, ev).wakeup == tsc + (consumed - tokens) / b.limit;
        }
      case Woke =>
      case Resumed(tsc) =>
        if s.wakeup == 0 { GrantSplits(b.limit, b.lastTsc, tsc, 0); }
    }
  }

  // What a step loses: tokens beyond the burst, and the cycles an awake limiter
  // is not granted because it is resumed.
  function Wasted(s: Limiter, ev: Event): int {
    match ev
    case Charged(consumed, tsc) =>
      var over := Potential(s) + s.bucket.limit * tsc - consumed - s.bucket.maxBurst;
      if over > 0 then over else 0
    case Woke => 0
    case Resumed(tsc) => if s.wakeup == 0 then s.bucket.limit * (tsc - s.bucket.lastTsc) else 0
  }

  // The other direction: what is granted is consumed, kept, or lost as above, and
  // nothing else gets lost.
  lemma PotentialKept(s: Limiter, ev: Event)
    requires s.bucket.limit > 0 && Enabled(s, ev)
    ensures Potential(Next(s, ev)) + Consumed(ev) + Wasted(s, ev) >= Potential(s)
  {
    var b := s.bucket;
    match ev {
      case Charged(consumed, tsc) =>
        var tokens := b.tokens + b.limit * (tsc - b.lastTsc);
        GrantSplits(b.limit, b.lastTsc, tsc, if tokens < consumed then (consumed - tokens) / b.limit else 0);
        assert Potential(s) + b.limit * tsc == tokens;
        if tokens < consumed {
          WaitCoversNoMore(consumed - tokens, b.limit);
        }
      case Woke =>
      case Resumed(tsc) =>
        if s.wakeup == 0 { GrantSplits(b.limit, b.lastTsc, tsc, 0); }
    }
  }

  lemma WaitCoversNoMore(owed: nat, limit: nat)
    requires limit > 0
    ensures limit * (owed / limit) <= owed
  {
  }

  // A charge throttles exactly when it exceeds the tokens in hand and all that
  // was granted since the last accounting; it then sleeps no longer than what is
  // owed takes to be granted.
  lemma ThrottledExactly(s: Limiter, consumed: nat, tsc: nat)
    requires s.bucket.limit > 0 && Enabled(s, Charged(consumed, tsc))
    ensures var t, had := Next(s, Charged(consumed, tsc)), Potential(s) + s.bucket.limit * tsc;
      && (Throttles(s, Charged(consumed, tsc)) == 1 <==> consumed > had) && (t.wakeup != 0 <==> consumed > had)
      && (consumed > had ==> t.bucket.tokens == 0 && t.bucket.limit * (t.wakeup - tsc) <= consumed - had < t.bucket.limit * (t.wakeup - tsc + 1))
      && (consumed <= had ==> t.bucket.tokens == if had - consumed < s.bucket.maxBurst then had - consumed else s.bucket.maxBurst)
  {
    var b := s.bucket;
    var tokens := b.tokens + b.limit * (tsc - b.lastTsc);
    GrantSplits(b.limit, b.lastTsc, tsc, 0);
    assert Elapsed(tsc, b.lastTsc) == tsc - b.lastTsc && Potential(s) + b.limit * tsc == tokens;
    if tokens < consumed {
      WaitExact(consumed - tokens, b.limit);
      assert Next(s, Charged(consumed, tsc)).wakeup - tsc == (consumed - tokens) / b.limit;
    }
  }

  lemma WaitExact(owed: nat, limit: nat)
    requires limit > 0
    ensures limit * (owed / limit) <= owed < limit * (owed / limit + 1)
  {
    assert limit * (owed / limit + 1) == limit * (owed / limit) + limit;
  }

  // A limiter resumed below its last_tsc_ is granted the same cycles twice: the
  // step respects the potential exactly when time does not go back.
  lemma ResumeExact(s: Limiter, tsc: nat)
    requires s.bucket.limit > 0 && s.wakeup == 0
    ensures Potential(Next(s, Resumed(tsc))) <= Potential(s) <==> s.bucket.lastTsc <= tsc
  {
    if s.bucket.lastTsc <= tsc {
      GrantSplits(s.bucket.limit, s.bucket.lastTsc, tsc, 0);
    } else {
      GrantSplits(s.bucket.limit, tsc, s.bucket.lastTsc, 0);
    }
  }

  function Final(s: Limiter, evs: seq<Event>): Limiter
    decreases |evs|
  {
    if evs == [] then s else Final(Next(s, evs[0]), evs[1..])
  }

  lemma {:induction false} FinalJoins(s: Limiter, evs: seq<Event>, more: seq<Event>)
    ensures Final(s, evs + more) == Final(Final(s, evs), more)
    decreases |evs|
  {
    if evs == [] {
      assert evs + more == more;
    } else {
      assert (evs + more)[1..] == evs[1..] + more;
      FinalJoins(Next(s, evs[0]), evs[1..], more);
    }
  }

  ghost predicate EnabledAll(s: Limiter, evs: seq<Event>)
    decreases |evs|
  {
    evs == [] || (Enabled(s, evs[0]) && EnabledAll(Next(s, evs[0]), evs[1..]))
  }

  function TotalConsumed(evs: seq<Event>): nat {
    if evs == [] then 0 else Consumed(evs[0]) + TotalConsumed(evs[1..])
  }

  function TotalThrottles(s: Limiter, evs: seq<Event>): nat
    decreases |evs|
  {
    if evs == [] then 0 else Throttles(s, evs[0]) + TotalThrottles(Next(s, evs[0]), evs[1..])
  }

  function TotalWasted(s: Limiter, evs: seq<Event>): int
    decreases |evs|
  {
    if evs == [] then 0 else Wasted(s, evs[0]) + TotalWasted(Next(s, evs[0]), evs[1..])
  }

  // Over every run: work done plus tokens left is at least the tokens at the
  // start and the limit times the cycles covered, less what was lost.
  lemma {:induction false} RateReached(s: Limiter, evs: seq<Event>)
    requires s.bucket.limit > 0 && EnabledAll(s, evs)
    ensures var f := Final(s, evs);
      TotalConsumed(evs) + f.bucket.tokens
      >= s.bucket.tokens + s.bucket.limit * (Horizon(f) - Horizon(s)) - TotalWasted(s, evs)
  {
    PotentialAlong(s, evs);
    KeptAlong(s, evs);
    var f := Final(s, evs);
    assert s.bucket.limit * (Horizon(f) - Horizon(s)) == s.bucket.limit * Horizon(f) - s.bucket.limit * Horizon(s);
  }

  lemma {:induction false} KeptAlong(s: Limiter, evs: seq<Event>)
    requires s.bucket.limit > 0 && EnabledAll(s, evs)
    ensures Potential(Final(s, evs)) + TotalConsumed(evs) + TotalWasted(s, evs) >= Potential(s)
    decreases |evs|
  {
    hide Wasted, Potential, Consumed, Enabled;
    if evs != [] {
      PotentialStep(s, evs[0]);
      PotentialKept(s, evs[0]);
      KeptAlong(Next(s, evs[0]), evs[1..]);
    }
  }

  // Over every run: work done plus tokens left is at most the tokens at the
  // start, the limit times the cycles covered, and limit - 1 per throttle; the
  // tokens never exceed the burst.
  lemma {:induction false} RateBound(s: Limiter, evs: seq<Event>)
    requires s.bucket.limit > 0 && EnabledAll(s, evs)
    ensures var f := Final(s, evs);
      TotalConsumed(evs) + f.bucket.tokens
      <= s.bucket.tokens + s.bucket.limit * (Horizon(f) - Horizon(s)) + (s.bucket.limit - 1) * TotalThrottles(s, evs)
    ensures s.bucket.tokens <= s.bucket.maxBurst ==> Final(s, evs).bucket.tokens <= s.bucket.maxBurst
  {
    PotentialAlong(s, evs);
    var f := Final(s, evs);
    assert s.bucket.limit * (Horizon(f) - Horizon(s)) == s.bucket.limit * Horizon(f) - s.bucket.limit * Horizon(s);
  }

  lemma {:induction false} PotentialAlong(s: Limiter, evs: seq<Event>)
    requires s.bucket.limit > 0 && EnabledAll(s, evs)
    ensures var f := Final(s, evs);
      && f.bucket.limit == s.bucket.limit && f.bucket.maxBurst == s.bucket.maxBurst
      && Potential(f) + TotalConsumed(evs) <= Potential(s) + (s.bucket.limit - 1) * TotalThrottles(s, evs)
      && (s.bucket.tokens <= s.bucket.maxBurst ==> f.bucket.tokens <= s.bucket.maxBurst)
    decreases |evs|
  {
    if evs != [] {
      PotentialStep(s, evs[0]);
      PotentialAlong(Next(s, evs[0]), evs[1..]);
      assert (s.bucket.limit - 1) * (Throttles(s, evs[0]) + TotalThrottles(Next(s, evs[0]), evs[1..]))
          == (s.bucket.limit - 1) * Throttles(s, evs[0])
             + (s.bucket.limit - 1) * TotalThrottles(Next(s, evs[0]), evs[1..]);
    }
  }

  // A limiter whose limit rounds to zero does not run unlimited: its first
  // excess throttles it and no wakeup is ever scheduled.
  lemma ZeroLimitNeverWakes(b: Bucket, consumed: nat, tsc: nat)
    requires b.limit == 0
    ensures Account(b, consumed, tsc).throttled <==> consumed > b.tokens
    ensures Account(b, consumed, tsc).wakeup == 0
  {
    assert b.limit * Elapsed(tsc, b.lastTsc) == 0;
  }
}
