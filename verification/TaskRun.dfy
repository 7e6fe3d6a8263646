/** One run of a task: packets travel in batches of at most 32 over the module
    graph, through a chained-gate shortcut, per-gate batches that are merged where
    they fit, and a queue ordered by gate priority. */
module TaskRun {
  import opened ExtendedPriorityQueue

  const MAX_BURST: nat := 32

  datatype Option<T> = None | Some(value: T)

  // ---- the module graph, fixed during a run ----

  datatype IGate<M> = IGate(mod: M, idx: nat, priority: nat, mergeable: bool)

  datatype OGate = OGate(id: nat, igate: nat)

  // Gates are named by their unique index. Every output gate carries a hook.
  datatype Net<!M> = Net(igates: map<nat, IGate<M>>, ogates: map<M, seq<Option<OGate>>>)

  ghost predicate IsOGate<M(!new)>(n: Net<M>, m: M, i: nat, o: OGate) {
    m in n.ogates && i < |n.ogates[m]| && n.ogates[m][i] == Some(o)
  }

  ghost predicate WellFormed<M(!new)>(n: Net<M>) {
    && (forall m, i, o :: IsOGate(n, m, i, o) ==> o.id !in n.igates && o.igate in n.igates)
    && (forall m, i, o, m', i', o' :: IsOGate(n, m, i, o) && IsOGate(n, m', i', o') && o.id == o'.id ==> m == m' && i == i')
    && (forall g :: g in n.igates ==> n.igates[g].mod in n.ogates)
  }

  // No cycle: every module is further down than its predecessors.
  ghost predicate Descends<M(!new)>(n: Net<M>, height: map<nat, nat>) {
    && n.igates.Keys <= height.Keys
    && forall g, i, o :: g in n.igates && IsOGate(n, n.igates[g].mod, i, o) && o.igate in n.igates ==>
         height[o.igate] < height[g]
  }

  // ---- the state of a task ----

  datatype Ref = Ref(gate: nat, batch: nat)

  // Batches by number: the pool and, under INIT, the one RunTask fills.
  datatype State<!P> = State(store: map<nat, seq<P>>, idx: nat, next: Option<Ref>, table: map<nat, nat>,
                             queue: seq<Entry<Ref>>, dead: seq<P>, drops: nat)

  // ---- where everything is ----

  // A batch on its way to input gate g: waiting in the queue or as the next of
  // a chain, still held at output gate o, or just taken from there.
  datatype Loc = Queued(g: nat) | Chained(g: nat) | Held(g: nat, o: nat) | Loose(g: nat)

  // A packet is in a batch, in the hands of the running module, waiting to be
  // freed, freed, or kept by a module.
  datatype Place = In(batch: nat) | Hand | Dead | Freed | Kept

  // sent and got list for each packet the input gates it was emitted to and
  // those at which it was handed to a module; freed lists all frees.
  datatype Ledger<!P> = Ledger(home: map<nat, Loc>, place: map<P, Place>, sent: map<P, seq<nat>>, got: map<P, seq<nat>>,
                               freed: seq<P>)

  ghost predicate Distinct<P>(s: seq<P>) {
    forall i, j :: 0 <= i < j < |s| ==> s[i] != s[j]
  }

  // A batch on its way holds 1 to 32 packets, only its own; those in e may be
  // empty.
  ghost predicate BatchOk<P(!new)>(store: map<nat, seq<P>>, idx: nat, place: map<P, Place>, b: nat, e: set<nat>) {
    && b in store && b < idx && |store[b]| <= MAX_BURST && (b in e || store[b] != [])
    && Distinct(store[b]) && forall p :: p in store[b] ==> p in place && place[p] == In(b)
  }

  ghost predicate BatchesOk<P(!new)>(store: map<nat, seq<P>>, idx: nat, l: Ledger<P>, e: set<nat>) {
    forall b :: b in l.home ==> BatchOk(store, idx, l.place, b, e)
  }

  // A packet is where the ledger says.
  ghost predicate PlacesOk<P(!new)>(store: map<nat, seq<P>>, l: Ledger<P>) {
    forall p :: p in l.place && l.place[p].In? ==>
      l.place[p].batch in l.home && l.place[p].batch in store && p in store[l.place[p].batch]
  }

  // A dropped packet waits in the dead batch or was freed, once.
  ghost predicate DropsOk<P(!new)>(dead: seq<P>, drops: nat, place: map<P, Place>, freed: seq<P>) {
    && (forall p :: p in dead <==> p in place && place[p] == Dead) && Distinct(dead) && |dead| < MAX_BURST
    && (forall p :: p in freed <==> p in place && place[p] == Freed) && Distinct(freed) && drops == |freed|
  }

  // The pointers of a task are those of the ledger.
  ghost predicate RefsOk<M(!new)>(n: Net<M>, next: Option<Ref>, table: map<nat, nat>, queue: seq<Entry<Ref>>, home: map<nat, Loc>) {
    && (forall b :: b in home ==> home[b].g in n.igates)
    && NextOk(next, home) && QueueOk(n, queue, home) && TableOk(n, table, home)
    && (forall b :: b in home && home[b].Chained? ==> home[b].g in n.igates && !n.igates[home[b].g].mergeable)
  }

  ghost predicate NextOk(next: Option<Ref>, home: map<nat, Loc>) {
    && (next.Some? ==> next.value.batch in home && home[next.value.batch] == Chained(next.value.gate))
    && (forall b :: b in home && home[b].Chained? ==> next == Some(Ref(home[b].g, b)))
  }

  ghost predicate TableOk<M(!new)>(n: Net<M>, table: map<nat, nat>, home: map<nat, Loc>) {
    && (forall x :: x in table ==> table[x] in home)
    && (forall x :: x in table && x in n.igates ==> home[table[x]] == Queued(x))
    && (forall x :: x in table && x !in n.igates ==> home[table[x]].Held? && home[table[x]].o == x)
    && (forall b :: b in home && home[b].Held? ==> home[b].o !in n.igates && home[b].o in table && table[home[b].o] == b)
  }

  ghost predicate QueueOk<M(!new)>(n: Net<M>, q: seq<Entry<Ref>>, home: map<nat, Loc>) {
    && IsHeap(q)
    && (forall e :: e in q ==> e.val.batch in home && home[e.val.batch] == Queued(e.val.gate) && e.val.gate in n.igates
                               && e == EntryOf(n, e.val.gate, e.val.batch))
    && (forall b :: b in home && home[b].Queued? && home[b].g in n.igates ==> multiset(q)[EntryOf(n, home[b].g, b)] == 1)
  }

  ghost function EntryOf<M>(n: Net<M>, g: nat, b: nat): Entry<Ref>
    requires g in n.igates
  {
    Entry(n.igates[g].priority, Ref(g, b))
  }

  // The gate a packet is on its way to.
  ghost predicate Bound<P>(l: Ledger<P>, p: P, g: nat) {
    p in l.place && l.place[p].In? && l.place[p].batch in l.home && l.home[l.place[p].batch].g == g
  }

  ghost predicate Still<P>(l: Ledger<P>, p: P) {
    p in l.place && !l.place[p].In?
  }

  // A packet was handed over wherever it was sent, except where it is bound for.
  ghost predicate LogsOk<P(!new)>(l: Ledger<P>) {
    && l.sent.Keys == l.got.Keys == l.place.Keys
    && (forall p :: Still(l, p) ==> l.sent[p] == l.got[p])
    && (forall p, g :: Bound(l, p, g) ==> l.sent[p] == l.got[p] + [g])
  }

  ghost predicate Inv<M(!new), P(!new)>(n: Net<M>, s: State<P>, l: Ledger<P>, e: set<nat>) {
    && WellFormed(n) && BatchesOk(s.store, s.idx, l, e) && PlacesOk(s.store, l) && LogsOk(l)
    && DropsOk(s.dead, s.drops, l.place, l.freed) && RefsOk(n, s.next, s.table, s.queue, l.home)
  }

  // ---- putting a batch up to run ----

  // Only the whereabouts of batches change: every packet stays on its way to
  // the same gate, or where it was.
  ghost predicate SameBounds<P(!new)>(l: Ledger<P>, k: Ledger<P>) {
    && k.sent == l.sent && k.got == l.got && k.freed == l.freed && k.place.Keys == l.place.Keys
    && (forall p :: Still(l, p) ==> k.place[p] == l.place[p])
    && (forall p, g :: Bound(l, p, g) ==> Bound(k, p, g))
  }

  // A batch moves, its packets with it.
  lemma Rehome<P(!new)>(store: map<nat, seq<P>>, idx: nat, l: Ledger<P>, b: nat, loc: Loc)
    requires BatchesOk(store, idx, l, {}) && PlacesOk(store, l) && LogsOk(l) && b in l.home && loc.g == l.home[b].g
    ensures var k := l.(home := l.home[b := loc]);
            SameBounds(l, k) && BatchesOk(store, idx, k, {}) && PlacesOk(store, k) && LogsOk(k)
  {
    var k := l.(home := l.home[b := loc]);
    assert BatchesOk(store, idx, k, {}) by { hide BatchOk; }
    forall p, g ensures Bound(k, p, g) <==> Bound(l, p, g) {}
    forall p ensures Still(k, p) <==> Still(l, p) {}
  }

  // Batches outside the queue do not concern it.
  lemma QueueSame<M(!new)>(n: Net<M>, q: seq<Entry<Ref>>, home: map<nat, Loc>, home': map<nat, Loc>)
    requires QueueOk(n, q, home)
    requires forall b :: b in home && home[b].Queued? ==> b in home' && home'[b] == home[b]
    requires forall b :: b in home' && home'[b].Queued? ==> b in home && home'[b] == home[b]
    ensures QueueOk(n, q, home')
  {
  }

  lemma ChainKeeps<M(!new), P(!new)>(n: Net<M>, s: State<P>, l: Ledger<P>, g: nat, b: nat)
    requires Inv(n, s, l, {}) && b in l.home && l.home[b] == Loose(g) && s.next == None
    requires g in n.igates && !n.igates[g].mergeable
    ensures var k := l.(home := l.home[b := Chained(g)]);
            Inv(n, s.(next := Some(Ref(g, b))), k, {}) && SameBounds(l, k)
  {
    hide BatchesOk, PlacesOk, LogsOk, DropsOk, WellFormed, SameBounds;
    Rehome(s.store, s.idx, l, b, Chained(g));
    var k := l.(home := l.home[b := Chained(g)]);
    QueueSame(n, s.queue, l.home, k.home);
    hide QueueOk;
  }

  lemma QueueKeeps<M(!new), P(!new)>(n: Net<M>, s: State<P>, l: Ledger<P>, g: nat, b: nat, q: seq<Entry<Ref>>)
    requires Inv(n, s, l, {}) && b in l.home && l.home[b] == Loose(g) && g in n.igates
    requires IsHeap(q) && multiset(q) == multiset(s.queue) + multiset{EntryOf(n, g, b)}
    ensures var k := l.(home := l.home[b := Queued(g)]);
            Inv(n, s.(queue := q, table := s.table[g := b]), k, {}) && SameBounds(l, k)
  {
    hide BatchesOk, PlacesOk, LogsOk, DropsOk, WellFormed, SameBounds, IsHeap;
    Rehome(s.store, s.idx, l, b, Queued(g));
    var k := l.(home := l.home[b := Queued(g)]);
    QueueMore(n, s.queue, l.home, g, b, q);
    hide QueueOk;
  }

  lemma QueueMore<M(!new)>(n: Net<M>, q: seq<Entry<Ref>>, home: map<nat, Loc>, g: nat, b: nat, r: seq<Entry<Ref>>)
    requires QueueOk(n, q, home) && g in n.igates && (b in home ==> !home[b].Queued?)
    requires IsHeap(r) && multiset(r) == multiset(q) + multiset{EntryOf(n, g, b)}
    ensures QueueOk(n, r, home[b := Queued(g)])
  {
    hide IsHeap;
    var home' := home[b := Queued(g)];
    forall e | e in r ensures e.val.batch in home' && home'[e.val.batch] == Queued(e.val.gate) && e.val.gate in n.igates
                              && e == EntryOf(n, e.val.gate, e.val.batch) {
      assert e in multiset(r);
      assert e in multiset(q) ==> e in q;
    }
    assert EntryOf(n, g, b) !in multiset(q) by { assert EntryOf(n, g, b) in q <==> EntryOf(n, g, b) in multiset(q); }
  }

  // The packets of batch b now belong to batch c.
  ghost function Merged<P(!new)>(l: Ledger<P>, b: nat, c: nat): Ledger<P> {
    l.(home := l.home - {b}, place := map p | p in l.place :: if l.place[p] == In(b) then In(c) else l.place[p])
  }

  lemma MergeBatches<P(!new)>(store: map<nat, seq<P>>, idx: nat, l: Ledger<P>, b: nat, c: nat)
    requires BatchesOk(store, idx, l, {}) && PlacesOk(store, l) && b in l.home && c in l.home && b != c
    requires |store[b]| + |store[c]| <= MAX_BURST
    ensures var k := Merged(l, b, c); var t := store[c := store[c] + store[b]];
            BatchesOk(t, idx, k, {}) && PlacesOk(t, k)
  {
    var k := Merged(l, b, c);
    var t := store[c := store[c] + store[b]];
    assert BatchOk(store, idx, l.place, b, {}) && BatchOk(store, idx, l.place, c, {});
    DistinctSum(store[c], store[b]);
    forall d | d in k.home ensures BatchOk(t, idx, k.place, d, {}) {
      assert BatchOk(store, idx, l.place, d, {});
      hide Distinct;
    }
  }

  lemma DistinctSum<P>(s: seq<P>, t: seq<P>)
    requires Distinct(s) && Distinct(t) && forall p :: p in s ==> p !in t
    ensures Distinct(s + t)
  {
    forall i, j | 0 <= i < j < |s + t| ensures (s + t)[i] != (s + t)[j] {
      assert i < |s| ==> s[i] in s;
      assert j >= |s| ==> t[j - |s|] in t;
    }
  }

  lemma MergeBounds<P(!new)>(l: Ledger<P>, b: nat, c: nat)
    requires LogsOk(l) && b in l.home && c in l.home && b != c && l.home[b].g == l.home[c].g
    ensures LogsOk(Merged(l, b, c)) && SameBounds(l, Merged(l, b, c))
  {
    var k := Merged(l, b, c);
    forall p, g ensures Bound(k, p, g) ==> Bound(l, p, g) {}
    forall p, g ensures Bound(l, p, g) ==> Bound(k, p, g) {}
    forall p ensures Still(k, p) <==> Still(l, p) {}
  }

  lemma MergeKeeps<M(!new), P(!new)>(n: Net<M>, s: State<P>, l: Ledger<P>, g: nat, b: nat)
    requires Inv(n, s, l, {}) && b in l.home && l.home[b] == Loose(g) && g in n.igates && g in s.table
    requires b in s.store && s.table[g] in s.store && |s.store[b]| + |s.store[s.table[g]]| <= MAX_BURST
    ensures var c := s.table[g]; var k := Merged(l, b, c);
            Inv(n, s.(store := s.store[c := s.store[c] + s.store[b]]), k, {}) && SameBounds(l, k)
  {
    hide BatchesOk, PlacesOk, LogsOk, DropsOk, WellFormed, SameBounds;
    var c := s.table[g];
    var k := Merged(l, b, c);
    MergeBatches(s.store, s.idx, l, b, c);
    MergeBounds(l, b, c);
    DropsSame(s.dead, s.drops, l.place, k.place, l.freed);
    QueueSame(n, s.queue, l.home, k.home);
    hide QueueOk;
  }

  lemma DropsSame<P(!new)>(dead: seq<P>, drops: nat, place: map<P, Place>, place': map<P, Place>, freed: seq<P>)
    requires DropsOk(dead, drops, place, freed) && place.Keys == place'.Keys
    requires forall p :: p in place ==> place[p] == place'[p] || (place[p] != Dead && place[p] != Freed &&
                                                                   place'[p] != Dead && place'[p] != Freed)
    ensures DropsOk(dead, drops, place', freed)
  {
  }

  // ---- single packets ----

  // Nothing happens to packets outside ps, except that dropped ones get freed.
  ghost predicate Others<P(!new)>(l: Ledger<P>, k: Ledger<P>, ps: set<P>) {
    && k.place.Keys == l.place.Keys && k.sent.Keys == l.sent.Keys
    && (forall p :: p in l.sent && p !in ps ==> k.sent[p] == l.sent[p])
    && (forall p :: Still(l, p) && p !in ps ==> k.place[p] == l.place[p] || (l.place[p] == Dead && k.place[p] == Freed))
    && (forall p, g :: Bound(l, p, g) && p !in ps ==> Bound(k, p, g))
  }

  lemma OthersOn<P(!new)>(l: Ledger<P>, k: Ledger<P>, j: Ledger<P>, ps: set<P>, qs: set<P>)
    requires Others(l, k, ps) && Others(k, j, qs)
    ensures Others(l, j, ps + qs)
  {
  }

  lemma BoundsOthers<P(!new)>(l: Ledger<P>, k: Ledger<P>, ps: set<P>)
    requires SameBounds(l, k)
    ensures Others(l, k, ps)
  {
  }

  lemma HoldBatches<P(!new)>(store: map<nat, seq<P>>, idx: nat, l: Ledger<P>, loc: Loc)
    requires BatchesOk(store, idx, l, {}) && PlacesOk(store, l)
    ensures idx !in l.home
    ensures var k := l.(home := l.home[idx := loc]); var t := store[idx := []];
            BatchesOk(t, idx + 1, k, {idx}) && PlacesOk(t, k)
  {
    assert idx !in l.home by { assert idx in l.home ==> BatchOk(store, idx, l.place, idx, {}); }
    forall c | c in l.home ensures BatchOk(store[idx := []], idx + 1, l.place, c, {idx}) {
      assert BatchOk(store, idx, l.place, c, {});
    }
  }

  lemma HoldBounds<P(!new)>(l: Ledger<P>, store: map<nat, seq<P>>, b: nat, loc: Loc)
    requires PlacesOk(store, l) && LogsOk(l) && b !in l.home
    ensures var k := l.(home := l.home[b := loc]); LogsOk(k) && SameBounds(l, k)
  {
    var k := l.(home := l.home[b := loc]);
    forall p, h ensures Bound(k, p, h) <==> Bound(l, p, h) {}
    forall p ensures Still(k, p) <==> Still(l, p) {}
  }

  // A new batch, still empty, for output gate o.
  lemma HoldKeeps<M(!new), P(!new)>(n: Net<M>, s: State<P>, l: Ledger<P>, g: nat, o: nat)
    requires Inv(n, s, l, {}) && g in n.igates && o !in n.igates && o !in s.table
    ensures var k := l.(home := l.home[s.idx := Held(g, o)]);
      && Inv(n, s.(store := s.store[s.idx := []], idx := s.idx + 1, table := s.table[o := s.idx]), k, {s.idx})
      && SameBounds(l, k)
  {
    hide BatchesOk, PlacesOk, LogsOk, DropsOk, WellFormed, SameBounds;
    HoldBatches(s.store, s.idx, l, Held(g, o));
    HoldBounds(l, s.store, s.idx, Held(g, o));
    var k := l.(home := l.home[s.idx := Held(g, o)]);
    QueueSame(n, s.queue, l.home, k.home);
    hide QueueOk;
  }

  // Packet p goes from the hands of the module into batch b.
  ghost function PutIn<P(!new)>(l: Ledger<P>, p: P, b: nat, g: nat): Ledger<P>
    requires p in l.sent
  {
    l.(place := l.place[p := In(b)], sent := l.sent[p := l.sent[p] + [g]])
  }

  lemma AddBatches<P(!new)>(store: map<nat, seq<P>>, idx: nat, l: Ledger<P>, b: nat, p: P)
    requires BatchesOk(store, idx, l, {b}) && PlacesOk(store, l) && b in l.home && |store[b]| < MAX_BURST
    requires p in l.place && l.place[p] == Hand && p in l.sent
    ensures var k := PutIn(l, p, b, l.home[b].g); var t := store[b := store[b] + [p]];
            BatchesOk(t, idx, k, {}) && PlacesOk(t, k)
  {
    var k := PutIn(l, p, b, l.home[b].g);
    var t := store[b := store[b] + [p]];
    assert BatchOk(store, idx, l.place, b, {b});
    DistinctSum(store[b], [p]);
    forall c | c in k.home ensures BatchOk(t, idx, k.place, c, {}) {
      assert BatchOk(store, idx, l.place, c, {b});
      hide Distinct;
    }
  }

  lemma AddBounds<P(!new)>(l: Ledger<P>, b: nat, p: P)
    requires LogsOk(l) && b in l.home && p in l.place && l.place[p] == Hand
    ensures var k := PutIn(l, p, b, l.home[b].g);
            LogsOk(k) && Others(l, k, {p}) && Bound(k, p, l.home[b].g) && k.sent[p] == l.sent[p] + [l.home[b].g]
  {
    var k := PutIn(l, p, b, l.home[b].g);
    assert Still(l, p);
    forall q, g | q != p ensures Bound(k, q, g) <==> Bound(l, q, g) {}
    forall q | q != p ensures Still(k, q) <==> Still(l, q) {}
  }

  lemma AddKeeps<M(!new), P(!new)>(n: Net<M>, s: State<P>, l: Ledger<P>, b: nat, p: P)
    requires Inv(n, s, l, {b}) && b in l.home && b in s.store && |s.store[b]| < MAX_BURST
    requires p in l.place && l.place[p] == Hand
    ensures p in l.sent
    ensures var k := PutIn(l, p, b, l.home[b].g);
      && Inv(n, s.(store := s.store[b := s.store[b] + [p]]), k, {})
      && Others(l, k, {p}) && Bound(k, p, l.home[b].g) && k.sent[p] == l.sent[p] + [l.home[b].g]
  {
    AddBounds(l, b, p);
    hide BatchesOk, PlacesOk, WellFormed, Others, RefsOk;
    AddBatches(s.store, s.idx, l, b, p);
    DropsSame(s.dead, s.drops, l.place, PutIn(l, p, b, l.home[b].g).place, l.freed);
  }

  lemma Nonempty<M(!new), P(!new)>(n: Net<M>, s: State<P>, l: Ledger<P>, b: nat)
    requires Inv(n, s, l, {})
    ensures Inv(n, s, l, {b})
  {
    hide WellFormed, DropsOk, RefsOk, LogsOk, PlacesOk;
    forall c | c in l.home ensures BatchOk(s.store, s.idx, l.place, c, {b}) {
      assert BatchOk(s.store, s.idx, l.place, c, {});
    }
  }

  // The batch of output gate o is taken from it.
  lemma LoosenKeeps<M(!new), P(!new)>(n: Net<M>, s: State<P>, l: Ledger<P>, o: nat)
    requires Inv(n, s, l, {}) && o in s.table && o !in n.igates
    ensures var b := s.table[o];
      && b in l.home && l.home[b].Held? && l.home[b].g in n.igates
      && var k := l.(home := l.home[b := Loose(l.home[b].g)]);
         Inv(n, s.(table := s.table - {o}), k, {}) && SameBounds(l, k)
    ensures forall x :: x in s.table && x !in n.igates && x != o ==> s.table[x] != s.table[o]
  {
    hide BatchesOk, PlacesOk, LogsOk, DropsOk, WellFormed, SameBounds;
    var b := s.table[o];
    var k := l.(home := l.home[b := Loose(l.home[b].g)]);
    Rehome(s.store, s.idx, l, b, Loose(l.home[b].g));
    QueueSame(n, s.queue, l.home, k.home);
    hide QueueOk;
  }

  // ---- drops ----

  lemma Unplaced<M(!new), P(!new)>(n: Net<M>, s: State<P>, l: Ledger<P>, p: P, where: Place)
    requires Inv(n, s, l, {}) && p in l.place && l.place[p] == Hand && !where.In?
    ensures var k := l.(place := l.place[p := where]);
      && BatchesOk(s.store, s.idx, k, {}) && PlacesOk(s.store, k) && LogsOk(k) && Others(l, k, {p})
  {
    hide WellFormed, RefsOk, DropsOk;
    var k := l.(place := l.place[p := where]);
    forall b | b in k.home ensures BatchOk(s.store, s.idx, k.place, b, {}) {
      assert BatchOk(s.store, s.idx, l.place, b, {});
    }
    forall q, h ensures Bound(k, q, h) <==> Bound(l, q, h) {}
    forall q ensures Still(k, q) <==> Still(l, q) {}
    assert Still(l, p);
  }

  lemma KeptKeeps<M(!new), P(!new)>(n: Net<M>, s: State<P>, l: Ledger<P>, p: P)
    requires Inv(n, s, l, {}) && p in l.place && l.place[p] == Hand
    ensures var k := l.(place := l.place[p := Kept]); Inv(n, s, k, {}) && Others(l, k, {p})
  {
    Unplaced(n, s, l, p, Kept);
    hide BatchesOk, PlacesOk, LogsOk, WellFormed, RefsOk, Others;
    DropsSame(s.dead, s.drops, l.place, l.place[p := Kept], l.freed);
  }

  // The ledger after the packets ps are freed.
  ghost function FreedAll<P(!new)>(l: Ledger<P>, ps: seq<P>): Ledger<P> {
    l.(place := map p | p in l.place :: if p in ps then Freed else l.place[p], freed := l.freed + ps)
  }

  // Freeing packets that are in no batch, among them all that were dropped.
  lemma FreeKeeps<M(!new), P(!new)>(n: Net<M>, s: State<P>, l: Ledger<P>, ps: seq<P>, dead: seq<P>)
    requires WellFormed(n) && BatchesOk(s.store, s.idx, l, {}) && PlacesOk(s.store, l) && LogsOk(l)
    requires RefsOk(n, s.next, s.table, s.queue, l.home)
    requires Distinct(ps) && forall p :: p in ps ==> Still(l, p) && l.place[p] != Freed
    requires (forall p :: p in dead <==> p in l.place && l.place[p] == Dead && p !in ps) && Distinct(dead) && |dead| < MAX_BURST
    requires (forall p :: p in l.freed <==> p in l.place && l.place[p] == Freed) && Distinct(l.freed) && s.drops == |l.freed|
    ensures Inv(n, s.(dead := dead, drops := s.drops + |ps|), FreedAll(l, ps), {})
  {
    hide WellFormed, RefsOk, BatchesOk, PlacesOk, LogsOk, Distinct;
    FreeLedger(s.store, s.idx, l, ps);
    var k := FreedAll(l, ps);
    DistinctSum(l.freed, ps);
    forall p ensures p in k.freed <==> p in k.place && k.place[p] == Freed {}
  }

  lemma FreeLedger<P(!new)>(store: map<nat, seq<P>>, idx: nat, l: Ledger<P>, ps: seq<P>)
    requires BatchesOk(store, idx, l, {}) && PlacesOk(store, l) && LogsOk(l)
    requires forall p :: p in ps ==> Still(l, p)
    ensures var k := FreedAll(l, ps); BatchesOk(store, idx, k, {}) && PlacesOk(store, k) && LogsOk(k)
  {
    var k := FreedAll(l, ps);
    forall b | b in k.home ensures BatchOk(store, idx, k.place, b, {}) {
      assert BatchOk(store, idx, l.place, b, {});
    }
    forall q, h ensures Bound(k, q, h) <==> Bound(l, q, h) {}
    forall q ensures Still(k, q) <==> Still(l, q) {}
  }

  lemma FreedOthers<P(!new)>(l: Ledger<P>, p: P, dead: seq<P>)
    requires p in l.place && l.place[p] == Hand && p in dead && forall q :: q in dead && q != p ==> q in l.place && l.place[q] == Dead
    ensures Others(l, FreedAll(l.(place := l.place[p := Dead]), dead), {p})
  {
    var k := FreedAll(l.(place := l.place[p := Dead]), dead);
    forall q, g | Bound(l, q, g) ensures Bound(k, q, g) {}
  }

  lemma DropKeeps<M(!new), P(!new)>(n: Net<M>, s: State<P>, l: Ledger<P>, p: P)
    requires Inv(n, s, l, {}) && p in l.place && l.place[p] == Hand
    ensures var k := l.(place := l.place[p := Dead]); var dead := s.dead + [p];
      && (|dead| < MAX_BURST ==> Inv(n, s.(dead := dead), k, {}) && Others(l, k, {p}))
      && (|dead| >= MAX_BURST ==>
            && Inv(n, s.(dead := [], drops := s.drops + |dead|), FreedAll(k, dead), {})
            && Others(l, FreedAll(k, dead), {p}) && p in dead)
  {
    var k := l.(place := l.place[p := Dead]);
    var dead := s.dead + [p];
    Unplaced(n, s, l, p, Dead);
    hide BatchesOk, PlacesOk, LogsOk, WellFormed, RefsOk, Others;
    DistinctSum(s.dead, [p]);
    hide Distinct;
    if |dead| >= MAX_BURST {
      FreedOthers(l, p, dead);
      forall q | q in dead ensures Still(k, q) && k.place[q] != Freed {}
      FreeKeeps(n, s, k, dead, []);
    }
  }

  // ---- whole batches ----

  // Batch b reaches its gate: its packets are handed to the module.
  ghost function Taken<P(!new)>(l: Ledger<P>, b: nat): Ledger<P>
    requires b in l.home
  {
    l.(home := l.home - {b}, place := map p | p in l.place :: if l.place[p] == In(b) then Hand else l.place[p],
       got := map p | p in l.got :: if p in l.place && l.place[p] == In(b) then l.got[p] + [l.home[b].g] else l.got[p])
  }

  ghost predicate AllIn<P(!new)>(l: Ledger<P>, ps: seq<P>, where: Place) {
    forall p :: p in l.place ==> (l.place[p] == where <==> p in ps)
  }

  lemma TakeLedger<P(!new)>(store: map<nat, seq<P>>, idx: nat, l: Ledger<P>, b: nat)
    requires BatchesOk(store, idx, l, {}) && PlacesOk(store, l) && LogsOk(l) && b in l.home
    ensures var k := Taken(l, b);
      && BatchesOk(store, idx, k, {}) && PlacesOk(store, k) && LogsOk(k) && k.sent == l.sent
      && BatchOk(store, idx, l.place, b, {}) && AllIn(l, store[b], In(b))
  {
    var k := Taken(l, b);
    assert BatchOk(store, idx, l.place, b, {});
    forall c | c in k.home ensures BatchOk(store, idx, k.place, c, {}) { assert BatchOk(store, idx, l.place, c, {}); }
    forall p, h | p in l.place && l.place[p] != In(b) ensures Bound(k, p, h) <==> Bound(l, p, h) {}
    forall p | p in l.place && l.place[p] != In(b) ensures Still(k, p) <==> Still(l, p) {}
    forall p | p in l.place && l.place[p] == In(b) ensures Bound(l, p, l.home[b].g) {}
  }

  lemma TakeOthers<P(!new)>(l: Ledger<P>, b: nat, ps: seq<P>)
    requires b in l.home && AllIn(l, ps, In(b)) && l.sent.Keys == l.got.Keys == l.place.Keys
    requires AllIn(l, [], Hand)
    ensures var k := Taken(l, b); AllIn(k, ps, Hand) && Others(l, k, Members(ps))
    ensures forall p :: p in ps && p in l.place ==> Bound(l, p, l.home[b].g)
  {
    var k := Taken(l, b);
    forall p, g | p !in ps && Bound(l, p, g) ensures Bound(k, p, g) {}
  }

  lemma TakeNextKeeps<M(!new), P(!new)>(n: Net<M>, s: State<P>, l: Ledger<P>)
    requires Inv(n, s, l, {}) && s.next.Some?
    ensures var b := s.next.value.batch;
      && b in l.home && l.home[b].g == s.next.value.gate && Inv(n, s.(next := None), Taken(l, b), {})
      && BatchOk(s.store, s.idx, l.place, b, {}) && AllIn(l, s.store[b], In(b))
  {
    hide BatchesOk, PlacesOk, LogsOk, DropsOk, WellFormed, BatchOk, AllIn;
    var b := s.next.value.batch;
    TakeLedger(s.store, s.idx, l, b);
    DropsSame(s.dead, s.drops, l.place, Taken(l, b).place, l.freed);
    QueueSame(n, s.queue, l.home, Taken(l, b).home);
    hide QueueOk;
  }

  lemma QueueLess<M(!new)>(n: Net<M>, q: seq<Entry<Ref>>, home: map<nat, Loc>, r: seq<Entry<Ref>>)
    requires QueueOk(n, q, home) && q != [] && IsHeap(r) && multiset(r) == multiset(q) - multiset{q[0]}
    ensures q[0].val.batch in home && home[q[0].val.batch] == Queued(q[0].val.gate)
    ensures QueueOk(n, r, home - {q[0].val.batch})
  {
    hide IsHeap;
    var b := q[0].val.batch;
    assert q[0] in q;
    forall e | e in r ensures e in q && e.val.batch != b {
      assert e in multiset(r);
      assert e in multiset(q);
      assert e in q;
    }
  }

  lemma TakeRefs<M(!new)>(n: Net<M>, next: Option<Ref>, table: map<nat, nat>, q: seq<Entry<Ref>>, home: map<nat, Loc>,
                          r: seq<Entry<Ref>>)
    requires RefsOk(n, next, table, q, home) && q != [] && IsHeap(r) && multiset(r) == multiset(q) - multiset{q[0]}
    ensures q[0].val.batch in home && home[q[0].val.batch] == Queued(q[0].val.gate)
    ensures RefsOk(n, next, table - {q[0].val.gate}, r, home - {q[0].val.batch})
  {
    QueueLess(n, q, home, r);
    hide QueueOk, IsHeap;
  }

  lemma TakeQueuedKeeps<M(!new), P(!new)>(n: Net<M>, s: State<P>, l: Ledger<P>, q: seq<Entry<Ref>>)
    requires Inv(n, s, l, {}) && s.queue != [] && IsHeap(q) && multiset(q) == multiset(s.queue) - multiset{s.queue[0]}
    ensures var b := s.queue[0].val.batch; var g := s.queue[0].val.gate;
      && b in l.home && l.home[b].g == g && Inv(n, s.(queue := q, table := s.table - {g}), Taken(l, b), {})
      && BatchOk(s.store, s.idx, l.place, b, {}) && AllIn(l, s.store[b], In(b))
  {
    hide BatchesOk, PlacesOk, LogsOk, DropsOk, WellFormed, BatchOk, AllIn, IsHeap, RefsOk;
    var b := s.queue[0].val.batch;
    TakeRefs(n, s.next, s.table, s.queue, l.home, q);
    TakeLedger(s.store, s.idx, l, b);
    DropsSame(s.dead, s.drops, l.place, Taken(l, b).place, l.freed);
  }

  // The module passes its whole batch on towards gate g.
  ghost function Passed<P(!new)>(l: Ledger<P>, ps: seq<P>, b: nat, g: nat): Ledger<P> {
    l.(home := l.home[b := Loose(g)], place := map p | p in l.place :: if p in ps then In(b) else l.place[p],
       sent := map p | p in l.sent :: if p in ps then l.sent[p] + [g] else l.sent[p])
  }

  lemma PassLedger<P(!new)>(store: map<nat, seq<P>>, idx: nat, l: Ledger<P>, b: nat, g: nat)
    requires BatchesOk(store, idx, l, {}) && PlacesOk(store, l) && LogsOk(l)
    requires b !in l.home && b in store && b < idx && store[b] != [] && |store[b]| <= MAX_BURST && Distinct(store[b])
    requires forall p :: p in store[b] ==> p in l.place && l.place[p] == Hand
    ensures var k := Passed(l, store[b], b, g);
      && BatchesOk(store, idx, k, {}) && PlacesOk(store, k) && LogsOk(k)
      && Others(l, k, set p | p in store[b])
      && forall p :: p in store[b] ==> Bound(k, p, g) && k.sent[p] == l.sent[p] + [g]
  {
    var k := Passed(l, store[b], b, g);
    forall c | c in k.home ensures BatchOk(store, idx, k.place, c, {}) {
      assert c in l.home ==> BatchOk(store, idx, l.place, c, {});
    }
    forall p, h | p !in store[b] ensures Bound(k, p, h) <==> Bound(l, p, h) {}
    forall p | p !in store[b] ensures Still(k, p) <==> Still(l, p) {}
    forall p | p in store[b] ensures Still(l, p) {}
  }

  lemma PassRefs<M(!new)>(n: Net<M>, next: Option<Ref>, table: map<nat, nat>, q: seq<Entry<Ref>>, home: map<nat, Loc>,
                          b: nat, g: nat)
    requires RefsOk(n, next, table, q, home) && b !in home && g in n.igates
    ensures RefsOk(n, next, table, q, home[b := Loose(g)])
  {
    QueueSame(n, q, home, home[b := Loose(g)]);
    hide QueueOk;
  }

  lemma PassKeeps<M(!new), P(!new)>(n: Net<M>, s: State<P>, l: Ledger<P>, b: nat, g: nat)
    requires Inv(n, s, l, {}) && g in n.igates
    requires b !in l.home && b in s.store && b < s.idx && s.store[b] != [] && |s.store[b]| <= MAX_BURST && Distinct(s.store[b])
    requires forall p :: p in s.store[b] ==> p in l.place && l.place[p] == Hand
    ensures var k := Passed(l, s.store[b], b, g);
      && Inv(n, s, k, {}) && Others(l, k, set p | p in s.store[b])
      && forall p :: p in s.store[b] ==> Bound(k, p, g) && k.sent[p] == l.sent[p] + [g]
  {
    hide BatchesOk, PlacesOk, DropsOk, WellFormed, Others, Distinct;
    PassLedger(s.store, s.idx, l, b, g);
    hide LogsOk, RefsOk;
    DropsSame(s.dead, s.drops, l.place, Passed(l, s.store[b], b, g).place, l.freed);
    PassRefs(n, s.next, s.table, s.queue, l.home, b, g);
  }

  // ---- running a task ----

  datatype Fate = Chain | Merge | Queue

  // What AddToRun does with a batch of cnt packets: free says that no gate is
  // next yet, waiting is the size of the batch already waiting at the gate.
  function FateOf(free: bool, mergeable: bool, waiting: Option<nat>, cnt: nat): Fate {
    if free && !mergeable then Chain
    else if waiting.Some? && waiting.value + cnt <= MAX_BURST then Merge
    else Queue
  }

  // Batch b of gate g went where its fate sends it, and nothing else changed.
  ghost predicate PutUp<M(!new), P(!new)>(n: Net<M>, s: State<P>, t: State<P>, g: nat, b: nat) {
    && g in n.igates && b in s.store && (g in s.table ==> s.table[g] in s.store)
    && var waiting := if g in s.table then Some(|s.store[s.table[g]]|) else None;
       match FateOf(s.next == None, n.igates[g].mergeable, waiting, |s.store[b]|)
       case Chain => t == s.(next := Some(Ref(g, b)))
       case Merge => t == s.(store := s.store[s.table[g] := s.store[s.table[g]] + s.store[b]])
       case Queue =>
         && t == s.(queue := t.queue, table := s.table[g := b])
         && multiset(t.queue) == multiset(s.queue) + multiset{EntryOf(n, g, b)}
  }

  // ---- output gates without hooks ----

  // Batch b is next in the chain or in the queue, so that it will be run.
  ghost predicate WillRun<P(!new)>(s: State<P>, b: nat) {
    (s.next.Some? && s.next.value.batch == b) || exists e :: e in s.queue && e.val.batch == b
  }

  // Gates other than those in e name batches that will be run.
  ghost predicate Plain<P(!new)>(s: State<P>, e: set<nat>) {
    && IsHeap(s.queue) && (forall b: nat :: WillRun(s, b) ==> b < s.idx && b in s.store)
    && (forall x :: x in s.table ==> s.table[x] < s.idx && s.table[x] in s.store && |s.store[s.table[x]]| <= MAX_BURST)
    && (forall x :: x in s.table && x !in e ==> WillRun(s, s.table[x]))
  }

  // The batch a packet for output gate o would go to: its own or, failing that,
  // the one waiting at the input gate.
  function BatchFor(table: map<nat, nat>, o: OGate): Option<nat> {
    if o.id in table then Some(table[o.id]) else if o.igate in table then Some(table[o.igate]) else None
  }

  // A new batch put up at gate g while empty is merged: one waits there, and the
  // new one cannot be chained.
  ghost predicate Merges<M(!new), P(!new)>(n: Net<M>, s: State<P>, g: nat) {
    g in n.igates && g in s.table && !(s.next == None && !n.igates[g].mergeable)
  }

  // A packet emitted at output gate o is never run: its batch is full and the
  // new one would be merged, or the batch is one that was lost before.
  ghost predicate Loses<M(!new), P(!new)>(n: Net<M>, s: State<P>, o: OGate) {
    match BatchFor(s.table, o)
    case None => false
    case Some(b) => if b in s.store && |s.store[b]| >= MAX_BURST then Merges(n, s, o.igate) else !WillRun(s, b)
  }

  // What will be run still will be, with the same packets first.
  ghost predicate StillRuns<P(!new)>(s: State<P>, t: State<P>) {
    s.idx <= t.idx && forall b: nat :: WillRun(s, b) && b in s.store ==> WillRun(t, b) && b in t.store && s.store[b] <= t.store[b]
  }

  ghost function WithNew<P(!new)>(s: State<P>): State<P> {
    s.(store := s.store[s.idx := []], idx := s.idx + 1)
  }

  ghost function Naming<P(!new)>(s: State<P>, x: nat, b: nat): State<P> {
    s.(table := s.table[x := b])
  }

  ghost function Grown<P(!new)>(s: State<P>, b: nat, p: P): State<P>
    requires b in s.store
  {
    s.(store := s.store[b := s.store[b] + [p]])
  }

  // What one emission at output gate o does to the whole state.
  ghost predicate Emitted<M(!new), P(!new)>(n: Net<M>, s: State<P>, t: State<P>, o: OGate, p: P) {
    match BatchFor(s.table, o)
    case None =>
      exists u :: PutUp(n, WithNew(s), u, o.igate, s.idx) && s.idx in u.store && t == Grown(Naming(u, o.id, s.idx), s.idx, p)
    case Some(b) =>
      if b in s.store && |s.store[b]| < MAX_BURST then t == Grown(Naming(s, o.id, b), b, p)
      else exists u :: PutUp(n, Naming(WithNew(s), o.id, s.idx), u, o.igate, s.idx) && s.idx in u.store && t == Grown(u, s.idx, p)
  }

  lemma NewKeeps<P(!new)>(s: State<P>, e: set<nat>)
    requires Plain(s, e)
    ensures Plain(WithNew(s), e) && !WillRun(WithNew(s), s.idx) && StillRuns(s, WithNew(s))
  {
    hide IsHeap;
    forall b: nat ensures WillRun(WithNew(s), b) == WillRun(s, b) {}
  }

  ghost predicate EndsWith<P(!new)>(s: State<P>, b: nat, p: P) {
    b in s.store && s.store[b] != [] && s.store[b][|s.store[b]| - 1] == p
  }

  lemma StillRunsHere<P(!new)>(s: State<P>)
    ensures StillRuns(s, s)
  {
  }

  lemma StillRunsOn<P(!new)>(s: State<P>, t: State<P>, u: State<P>)
    requires StillRuns(s, t) && StillRuns(t, u)
    ensures StillRuns(s, u)
  {
    hide WillRun;
  }

  // A gate takes up batch b.
  lemma NamedKeeps<P(!new)>(s: State<P>, x: nat, b: nat, e: set<nat>)
    requires Plain(s, e) && b in s.store && b < s.idx && |s.store[b]| <= MAX_BURST
    ensures var t := Naming(s, x, b);
      Plain(t, if WillRun(s, b) then e - {x} else e + {x}) && StillRuns(s, t) && forall c: nat :: WillRun(t, c) <==> WillRun(s, c)
  {
    hide IsHeap;
    forall c: nat ensures WillRun(Naming(s, x, b), c) == WillRun(s, c) {}
    hide WillRun;
  }

  lemma GrowKeeps<P(!new)>(s: State<P>, b: nat, p: P, e: set<nat>)
    requires Plain(s, e) && b in s.store && |s.store[b]| < MAX_BURST
    ensures var t := Grown(s, b, p);
      Plain(t, e) && StillRuns(s, t) && EndsWith(t, b, p) && forall c: nat :: WillRun(t, c) <==> WillRun(s, c)
  {
    hide IsHeap;
    var t := Grown(s, b, p);
    forall c: nat ensures WillRun(t, c) == WillRun(s, c) {}
    hide WillRun;
  }

  lemma PlainFacts<P(!new)>(s: State<P>, e: set<nat>)
    requires Plain(s, e)
    ensures IsHeap(s.queue)
    ensures forall x :: x in s.table ==> s.table[x] < s.idx && s.table[x] in s.store && |s.store[s.table[x]]| <= MAX_BURST
    ensures forall x :: x in s.table && x !in e ==> WillRun(s, s.table[x])
    ensures forall x :: x in e && x in s.table && WillRun(s, s.table[x]) ==> Plain(s, e - {x})
  {
  }

  lemma EmptyMerges<M(!new), P(!new)>(n: Net<M>, s: State<P>, t: State<P>, g: nat, b: nat, e: set<nat>)
    requires Plain(s, e) && b in s.store && s.store[b] == [] && PutUp(n, s, t, g, b) && Merges(n, s, g)
    ensures t == s
  {
    hide IsHeap, WillRun;
    assert s.store[s.table[g]] + s.store[b] == s.store[s.table[g]];
    assert s.store[s.table[g] := s.store[s.table[g]]] == s.store;
  }

  lemma EmptyRuns<M(!new), P(!new)>(n: Net<M>, s: State<P>, t: State<P>, g: nat, b: nat)
    requires b in s.store && PutUp(n, s, t, g, b) && !Merges(n, s, g)
    ensures t.store == s.store && t.idx == s.idx && (t.table == s.table || t.table == s.table[g := b])
    ensures forall c: nat :: WillRun(t, c) <==> WillRun(s, c) || c == b
  {
    if !(s.next == None && !n.igates[g].mergeable) {
      forall x | x in s.queue ensures x in t.queue { assert x in multiset(t.queue); }
      assert EntryOf(n, g, b) in multiset(t.queue);
      forall x | x in t.queue ensures x in s.queue || x == EntryOf(n, g, b) { assert x in multiset(t.queue); }
    }
  }

  // An empty batch is put up: it will be run, unless it is merged into one that
  // waits.
  lemma EmptyPutUp<M(!new), P(!new)>(n: Net<M>, s: State<P>, t: State<P>, g: nat, b: nat, e: set<nat>)
    requires Plain(s, e) && b in s.store && s.store[b] == [] && b < s.idx && PutUp(n, s, t, g, b) && IsHeap(t.queue)
    ensures Plain(t, e) && StillRuns(s, t) && t.store == s.store
    ensures if Merges(n, s, g) then t == s else WillRun(t, b) && (t.table == s.table || t.table == s.table[g := b])
  {
    if Merges(n, s, g) {
      EmptyMerges(n, s, t, g, b, e);
    } else {
      EmptyRuns(n, s, t, g, b);
    }
    hide IsHeap, WillRun, PutUp, Merges;
  }

  // The gate takes the batch found for it.
  lemma Named<M(!new), P(!new)>(n: Net<M>, s: State<P>, o: OGate, b: nat, e: set<nat>)
    requires Plain(s, e) && o.igate !in e && BatchFor(s.table, o) == Some(b) && b in s.store && |s.store[b]| < MAX_BURST
    ensures var t := Naming(s, o.id, b);
      && Plain(t, if Loses(n, s, o) then e + {o.id} else e - {o.id}) && StillRuns(s, t)
      && (WillRun(t, b) <==> !Loses(n, s, o))
  {
    hide IsHeap, WillRun, StillRuns;
    PlainFacts(s, e);
    NamedKeeps(s, o.id, b, e);
  }

  // The state with a new batch for output gate o, put up while empty.
  ghost predicate Renewed<M(!new), P(!new)>(n: Net<M>, s: State<P>, t: State<P>, o: OGate) {
    if BatchFor(s.table, o).Some? then PutUp(n, Naming(WithNew(s), o.id, s.idx), t, o.igate, s.idx)
    else exists u :: PutUp(n, WithNew(s), u, o.igate, s.idx) && t == Naming(u, o.id, s.idx)
  }

  lemma EmittedInto<M(!new), P(!new)>(n: Net<M>, s: State<P>, u: State<P>, t: State<P>, o: OGate, p: P, b: nat)
    requires b in u.store && t == Grown(u, b, p)
    requires var at := BatchFor(s.table, o);
      if at.Some? && at.value in s.store && |s.store[at.value]| < MAX_BURST then b == at.value && u == Naming(s, o.id, b)
      else b == s.idx && Renewed(n, s, u, o)
    ensures Emitted(n, s, t, o, p)
  {
    hide PutUp;
    if BatchFor(s.table, o) == None {
      var v :| PutUp(n, WithNew(s), v, o.igate, s.idx) && u == Naming(v, o.id, s.idx);
      assert s.idx in v.store;
    }
  }

  // ---- a packet that is lost ----

  // All that was emitted so far waits in batch b at the input gate.
  ghost predicate Filling<M(!new), P(!new)>(n: Net<M>, s: State<P>, o: OGate, b: nat, ps: seq<P>) {
    && o.igate in n.igates && o.id !in n.igates && n.igates[o.igate].mergeable
    && if ps == [] then s.table == map[] && s.idx == b && s.queue == [] && s.next == None
       else && s.table == map[o.igate := b, o.id := b] && b in s.store && s.store[b] == ps && b < s.idx
            && s.queue == [EntryOf(n, o.igate, b)] && s.next == None
  }

  lemma NothingYet<M(!new), P(!new)>(n: Net<M>, s: State<P>, o: OGate, b: nat)
    requires o.igate in n.igates && o.id !in n.igates && n.igates[o.igate].mergeable
    requires s.table == map[] && s.idx == b && s.queue == [] && s.next == None
    ensures Filling(n, s, o, b, [])
  {
  }

  lemma NotLost<M(!new), P(!new)>(n: Net<M>, s: State<P>, o: OGate, b: nat, ps: seq<P>)
    requires Filling(n, s, o, b, ps) && |ps| < MAX_BURST
    ensures !Loses(n, s, o)
  {
    if ps != [] { assert EntryOf(n, o.igate, b) in s.queue; }
  }

  lemma FillsOne<M(!new), P(!new)>(n: Net<M>, s: State<P>, t: State<P>, o: OGate, b: nat, ps: seq<P>, p: P)
    requires Filling(n, s, o, b, ps) && |ps| < MAX_BURST && Emitted(n, s, t, o, p)
    ensures Filling(n, t, o, b, ps + [p])
  {
    if ps == [] {
      var u :| PutUp(n, WithNew(s), u, o.igate, s.idx) && s.idx in u.store && t == Grown(Naming(u, o.id, s.idx), s.idx, p);
      OneEntry(u.queue, EntryOf(n, o.igate, b));
      assert t.table == map[o.igate := b, o.id := b];
    } else {
      assert s.table[o.id := b] == s.table;
    }
  }

  lemma OneEntry<T>(q: seq<T>, x: T)
    requires multiset(q) == multiset{x}
    ensures q == [x]
  {
    assert |multiset(q)| == |q| == 1;
    assert q[0] in multiset(q);
  }

  // The packet after a full batch is in no batch that will be run.
  lemma Lost<M(!new), P(!new)>(n: Net<M>, s: State<P>, t: State<P>, o: OGate, b: nat, ps: seq<P>)
    requires |ps| == MAX_BURST + 1 && Distinct(ps) && Filling(n, s, o, b, ps[..MAX_BURST]) && Emitted(n, s, t, o, ps[MAX_BURST])
    ensures forall c: nat :: WillRun(t, c) && c in t.store ==> ps[MAX_BURST] !in t.store[c]
    ensures WillRun(t, b) && b in t.store && t.store[b] == ps[..MAX_BURST]
  {
    var p := ps[MAX_BURST];
    var v := Naming(WithNew(s), o.id, s.idx);
    var u :| PutUp(n, v, u, o.igate, s.idx) && s.idx in u.store && t == Grown(u, s.idx, p);
    assert v.store[b] + [] == v.store[b] && v.store[b := v.store[b]] == v.store;
    assert t.queue == s.queue && t.next == None && t.store[b] == ps[..MAX_BURST];
    assert EntryOf(n, o.igate, b) in t.queue;
    forall c: nat | WillRun(t, c) ensures c == b {}
    assert p !in ps[..MAX_BURST];
  }

  // Batches that are not on their way are left alone.
  ghost predicate Untouched<P(!new)>(s: State<P>, l: Ledger<P>, t: State<P>, k: Ledger<P>) {
    && s.idx <= t.idx && (forall c :: c < s.idx && c !in l.home ==> c !in k.home)
    && (forall c :: c < s.idx && c !in l.home && c in s.store ==> c in t.store && t.store[c] == s.store[c])
  }

  // Output gates keep their batches.
  ghost predicate SameHeld<M(!new), P(!new)>(n: Net<M>, s: State<P>, l: Ledger<P>, t: State<P>, k: Ledger<P>) {
    && (forall x :: x !in n.igates ==> (x in s.table <==> x in t.table))
    && (forall x :: x !in n.igates && x in s.table && s.table[x] in l.home ==>
          t.table[x] == s.table[x] && t.table[x] in k.home && k.home[t.table[x]] == l.home[s.table[x]])
  }

  lemma AddFrame<M(!new), P(!new)>(n: Net<M>, s: State<P>, l: Ledger<P>, t: State<P>, k: Ledger<P>, b: nat, g: nat, loc: Loc)
    requires Inv(n, s, l, {}) && b in l.home && l.home[b] == Loose(g) && g in n.igates && t.idx == s.idx
    requires t.store == s.store && (t.table == s.table || t.table == s.table[g := b])
    requires k.home == l.home[b := loc]
    ensures Untouched(s, l, t, k) && SameHeld(n, s, l, t, k)
  {
    hide BatchesOk, PlacesOk, LogsOk, DropsOk, WellFormed, QueueOk, NextOk;
  }

  lemma MergeFrame<M(!new), P(!new)>(n: Net<M>, s: State<P>, l: Ledger<P>, b: nat, g: nat)
    requires Inv(n, s, l, {}) && b in l.home && l.home[b] == Loose(g) && g in n.igates && g in s.table
    requires b in s.store && s.table[g] in s.store
    ensures var c := s.table[g];
            var t := s.(store := s.store[c := s.store[c] + s.store[b]]);
            Untouched(s, l, t, Merged(l, b, c)) && SameHeld(n, s, l, t, Merged(l, b, c))
  {
    hide BatchesOk, PlacesOk, LogsOk, DropsOk, WellFormed, QueueOk, NextOk;
  }

  lemma LooseBatch<M(!new), P(!new)>(n: Net<M>, s: State<P>, l: Ledger<P>, b: nat, g: nat)
    requires Inv(n, s, l, {}) && b in l.home && l.home[b] == Loose(g)
    ensures g in n.igates && b in s.store
    ensures g in s.table ==> s.table[g] in s.store && s.table[g] in l.home
    ensures IsHeap(s.queue)
  {
    assert BatchOk(s.store, s.idx, l.place, b, {});
    assert g in s.table ==> BatchOk(s.store, s.idx, l.place, s.table[g], {});
  }

  lemma UntouchedOn<P(!new)>(s: State<P>, l: Ledger<P>, t: State<P>, k: Ledger<P>, u: State<P>, j: Ledger<P>)
    requires Untouched(s, l, t, k) && Untouched(t, k, u, j)
    ensures Untouched(s, l, u, j)
  {
  }

  // ---- output gates of the running module ----

  ghost predicate NoLoose(home: map<nat, Loc>) {
    forall b :: b in home ==> !home[b].Loose?
  }

  ghost predicate Hooked<M(!new)>(n: Net<M>, m: M, table: map<nat, nat>, home: map<nat, Loc>, i: nat) {
    && m in n.ogates && i < |n.ogates[m]| && n.ogates[m][i].Some?
    && var o := n.ogates[m][i].value;
       o.id in table && table[o.id] in home && home[table[o.id]] == Held(o.igate, o.id)
  }

  // hooks lists the output gates of m that hold a batch, once each, and no
  // other output gate holds one.
  ghost predicate HooksOk<M(!new)>(n: Net<M>, m: M, table: map<nat, nat>, home: map<nat, Loc>, hooks: seq<nat>) {
    && m in n.ogates && NoLoose(home) && Distinct(hooks) && (forall i :: i in hooks ==> Hooked(n, m, table, home, i))
    && forall x :: x in table && x !in n.igates ==>
         exists i :: i in hooks && i < |n.ogates[m]| && n.ogates[m][i].Some? && n.ogates[m][i].value.id == x
  }

  ghost predicate OGateAt<M(!new)>(n: Net<M>, m: M, i: nat, o: OGate) {
    WellFormed(n) && IsOGate(n, m, i, o)
  }

  lemma HooksHold<M(!new)>(n: Net<M>, m: M, table: map<nat, nat>, home: map<nat, Loc>, hooks: seq<nat>, i: nat, o: OGate, b: nat)
    requires HooksOk(n, m, table, home, hooks) && OGateAt(n, m, i, o) && o.id !in table && b !in home
    ensures HooksOk(n, m, table[o.id := b], home[b := Held(o.igate, o.id)], hooks + [i])
  {
    assert i !in hooks by { assert i in hooks ==> Hooked(n, m, table, home, i); }
    DistinctSum(hooks, [i]);
    hide Distinct;
    var table', home' := table[o.id := b], home[b := Held(o.igate, o.id)];
    forall j | j in hooks + [i] ensures Hooked(n, m, table', home', j) {
      if j != i {
        assert Hooked(n, m, table, home, j);
        assert IsOGate(n, m, j, n.ogates[m][j].value);
      }
    }
    forall x | x in table' && x !in n.igates
      ensures exists j :: j in hooks + [i] && j < |n.ogates[m]| && n.ogates[m][j].Some? && n.ogates[m][j].value.id == x {
      if x == o.id {
        assert i in hooks + [i];
      } else {
        var j :| j in hooks && j < |n.ogates[m]| && n.ogates[m][j].Some? && n.ogates[m][j].value.id == x;
        assert j in hooks + [i];
      }
    }
  }

  // Output gate o exchanges its batch for b.
  lemma HooksSwap<M(!new)>(n: Net<M>, m: M, table: map<nat, nat>, home: map<nat, Loc>, hooks: seq<nat>, i: nat, o: OGate, b: nat,
                           table': map<nat, nat>, home': map<nat, Loc>)
    requires HooksOk(n, m, table, home, hooks) && OGateAt(n, m, i, o) && o.id in table && o.id !in n.igates
    requires NoLoose(home') && o.id in table' && table'[o.id] == b && b in home' && home'[b] == Held(o.igate, o.id)
    requires forall x :: x !in n.igates ==> (x in table <==> x in table')
    requires forall x :: x !in n.igates && x in table && x != o.id && table[x] in home ==>
               table'[x] == table[x] && table'[x] in home' && home'[table'[x]] == home[table[x]]
    ensures HooksOk(n, m, table', home', hooks)
  {
    hide Distinct;
    forall j | j in hooks ensures Hooked(n, m, table', home', j) {
      assert Hooked(n, m, table, home, j);
      assert IsOGate(n, m, j, n.ogates[m][j].value);
    }
  }

  lemma NewBatch<M(!new), P(!new)>(n: Net<M>, s: State<P>, l: Ledger<P>)
    requires Inv(n, s, l, {})
    ensures s.idx !in l.home
  {
    assert s.idx in l.home ==> BatchOk(s.store, s.idx, l.place, s.idx, {});
  }

  lemma SameBoundsOn<P(!new)>(l: Ledger<P>, k: Ledger<P>, j: Ledger<P>)
    requires SameBounds(l, k) && SameBounds(k, j)
    ensures SameBounds(l, j)
  {
    forall p | Still(l, p) ensures Still(k, p) {}
  }

  // ---- what modules decide ----

  datatype Act = Emit(ogate: nat) | Drop | Keep

  // What happened to packet p is what module m decided: emitted, it is on its
  // way to the input gate connected to that output gate, or dropped when there
  // is none.
  ghost predicate Obeyed<M(!new), P(!new)>(n: Net<M>, m: M, l: Ledger<P>, p: P, act: Act) {
    match act
    case Emit(i) =>
      if m in n.ogates && i < |n.ogates[m]| && n.ogates[m][i].Some? then Bound(l, p, n.ogates[m][i].value.igate)
      else p in l.place && l.place[p] in {Dead, Freed}
    case Drop => p in l.place && l.place[p] in {Dead, Freed}
    case Keep => p in l.place && l.place[p] == Kept
  }

  lemma HooksModule<M(!new)>(n: Net<M>, m: M, table: map<nat, nat>, home: map<nat, Loc>, hooks: seq<nat>)
    requires HooksOk(n, m, table, home, hooks)
    ensures m in n.ogates
  {
  }

  lemma UntouchedDrop<P(!new)>(s: State<P>, l: Ledger<P>, t: State<P>, k: Ledger<P>)
    requires t.store == s.store && t.idx == s.idx && k.home == l.home
    ensures Untouched(s, l, t, k)
  {
  }

  lemma UntouchedHere<P(!new)>(s: State<P>, l: Ledger<P>)
    ensures Untouched(s, l, s, l)
  {
  }

  lemma SameBoundsHere<P(!new)>(l: Ledger<P>)
    ensures SameBounds(l, l)
  {
  }

  lemma UntouchedAdd<P(!new)>(s: State<P>, l: Ledger<P>, t: State<P>, k: Ledger<P>, u: State<P>, j: Ledger<P>, b: nat, p: P)
    requires Untouched(s, l, t, k) && b in k.home && b in t.store && u.idx == t.idx && j.home == k.home
    requires u.store == t.store[b := t.store[b] + [p]]
    ensures Untouched(s, l, u, j)
  {
  }

  lemma PlaceKept<P(!new)>(l: Ledger<P>, k: Ledger<P>, p: P)
    requires SameBounds(l, k) && p in l.place && l.place[p] == Hand
    ensures p in k.place && k.place[p] == Hand && k.sent == l.sent && k.got == l.got
  {
    assert Still(l, p);
  }

  lemma GateFacts<M(!new), P(!new)>(n: Net<M>, s: State<P>, l: Ledger<P>, m: M, i: nat, o: OGate)
    requires Inv(n, s, l, {}) && IsOGate(n, m, i, o)
    ensures OGateAt(n, m, i, o) && o.igate in n.igates && o.id !in n.igates
  {
    hide BatchesOk, PlacesOk, LogsOk, DropsOk, RefsOk;
  }

  // The batch an output gate holds.
  lemma HookedBatch<M(!new), P(!new)>(n: Net<M>, m: M, s: State<P>, l: Ledger<P>, hooks: seq<nat>, i: nat, o: OGate)
    requires Inv(n, s, l, {}) && HooksOk(n, m, s.table, l.home, hooks) && OGateAt(n, m, i, o) && o.id in s.table
    requires o.id !in n.igates
    ensures var b := s.table[o.id];
            b in l.home && l.home[b] == Held(o.igate, o.id) && b in s.store && NoLoose(l.home)
  {
    hide PlacesOk, LogsOk, DropsOk, RefsOk, Distinct;
    var j :| j in hooks && j < |n.ogates[m]| && n.ogates[m][j].Some? && n.ogates[m][j].value.id == o.id;
    assert IsOGate(n, m, j, n.ogates[m][j].value);
    assert Hooked(n, m, s.table, l.home, j);
    assert BatchOk(s.store, s.idx, l.place, s.table[o.id], {});
  }

  lemma HookedFirst<M(!new), P(!new)>(n: Net<M>, m: M, s: State<P>, l: Ledger<P>, hs: seq<nat>)
    requires Inv(n, s, l, {}) && HooksOk(n, m, s.table, l.home, hs) && hs != []
    ensures WellFormed(n) && m in n.ogates && hs[0] < |n.ogates[m]| && n.ogates[m][hs[0]].Some? && NoLoose(l.home)
    ensures var o := n.ogates[m][hs[0]].value;
            o.id in s.table && o.id !in n.igates && s.table[o.id] in l.home && l.home[s.table[o.id]] == Held(o.igate, o.id)
  {
    hide BatchesOk, PlacesOk, LogsOk, DropsOk, RefsOk, Distinct;
    assert Hooked(n, m, s.table, l.home, hs[0]);
    assert IsOGate(n, m, hs[0], n.ogates[m][hs[0]].value);
  }

  // The first output gate on the list has given its batch away.
  lemma HooksFlushed<M(!new)>(n: Net<M>, m: M, table: map<nat, nat>, home: map<nat, Loc>, hs: seq<nat>,
                              table': map<nat, nat>, home': map<nat, Loc>)
    requires WellFormed(n) && HooksOk(n, m, table, home, hs) && hs != [] && NoLoose(home')
    requires hs[0] < |n.ogates[m]| && n.ogates[m][hs[0]].Some?
    requires forall x :: x !in n.igates ==> (x in table' <==> x in table && x != n.ogates[m][hs[0]].value.id)
    requires forall x :: x !in n.igates && x in table' && table[x] in home ==>
               table'[x] == table[x] && table'[x] in home' && home'[table'[x]] == home[table[x]]
    ensures HooksOk(n, m, table', home', hs[1..])
  {
    forall j | j in hs[1..] ensures Hooked(n, m, table', home', j) {
      assert Hooked(n, m, table, home, j) && j != hs[0];
      assert IsOGate(n, m, j, n.ogates[m][j].value) && IsOGate(n, m, hs[0], n.ogates[m][hs[0]].value);
    }
    forall x | x in table' && x !in n.igates
      ensures exists i :: i in hs[1..] && i < |n.ogates[m]| && n.ogates[m][i].Some? && n.ogates[m][i].value.id == x {
      var i :| i in hs && i < |n.ogates[m]| && n.ogates[m][i].Some? && n.ogates[m][i].value.id == x;
      assert i in hs[1..];
    }
  }

  // Between module runs: no output gate holds a batch.
  ghost predicate Calm<M(!new)>(n: Net<M>, table: map<nat, nat>, home: map<nat, Loc>) {
    table.Keys <= n.igates.Keys && NoLoose(home)
  }

  lemma HooksDone<M(!new)>(n: Net<M>, m: M, table: map<nat, nat>, home: map<nat, Loc>)
    requires m in n.ogates
    ensures HooksOk(n, m, table, home, []) <==> Calm(n, table, home)
  {
  }

  ghost function Members<P>(s: seq<P>): set<P> {
    set p | p in s
  }

  // Batch b is with the running module.
  ghost predicate InHand<P(!new)>(store: map<nat, seq<P>>, idx: nat, l: Ledger<P>, b: nat) {
    && b in store && b < idx && b !in l.home && |store[b]| <= MAX_BURST && Distinct(store[b])
    && forall p :: p in store[b] ==> p in l.place && l.place[p] == Hand
  }

  lemma OthersHere<P(!new)>(l: Ledger<P>, ps: set<P>)
    ensures Others(l, l, ps)
  {
  }

  lemma DeadendKeeps<M(!new), P(!new)>(n: Net<M>, s: State<P>, l: Ledger<P>, b: nat)
    requires Inv(n, s, l, {}) && InHand(s.store, s.idx, l, b)
    ensures var k := FreedAll(l, s.store[b]); var ps := s.store[b];
      && Inv(n, s.(store := s.store[b := []], drops := s.drops + |ps|), k, {})
      && Others(l, k, Members(ps)) && forall p :: p in ps ==> p in k.place && k.place[p] == Freed
  {
    var ps := s.store[b];
    var k := FreedAll(l, ps);
    FreeKeeps(n, s, l, ps, s.dead);
    hide LogsOk, DropsOk, RefsOk, WellFormed, Distinct;
    forall c | c in k.home ensures BatchOk(s.store[b := []], s.idx, k.place, c, {}) {
      assert BatchOk(s.store, s.idx, k.place, c, {});
    }
    forall p, g | p !in Members(ps) && Bound(l, p, g) ensures Bound(k, p, g) {}
  }

  lemma PassCalm<M(!new), P(!new)>(n: Net<M>, table: map<nat, nat>, l: Ledger<P>, ps: seq<P>, b: nat, g: nat)
    requires Calm(n, table, l.home)
    ensures var k := Passed(l, ps, b, g);
      && b in k.home && k.home[b] == Loose(g) && k.got == l.got && table.Keys <= n.igates.Keys
      && forall c :: c in k.home && c != b ==> !k.home[c].Loose?
  {
  }

  lemma CalmAgain<M(!new), P(!new)>(n: Net<M>, s: State<P>, l: Ledger<P>, t: State<P>, k: Ledger<P>, b: nat)
    requires SameHeld(n, s, l, t, k) && s.table.Keys <= n.igates.Keys
    requires forall c :: c in l.home && c != b ==> !l.home[c].Loose?
    requires forall c :: c in k.home && k.home[c].Loose? ==> c != b && c in l.home && l.home[c].Loose?
    ensures Calm(n, t.table, k.home)
  {
  }

  lemma BoundAgain<P(!new)>(l: Ledger<P>, k: Ledger<P>, ps: seq<P>, g: nat)
    requires SameBounds(l, k) && forall p :: p in ps ==> Bound(l, p, g)
    ensures k.got == l.got && forall p :: p in ps ==> Bound(k, p, g)
  {
  }

  // A packet without an entry is kept by the module.
  function ActAt(acts: seq<Act>, i: nat): Act {
    if i < |acts| then acts[i] else Keep
  }

  // Progress of handling the packets ps: the first i are dealt with.
  ghost predicate Scattered<M(!new), P(!new)>(n: Net<M>, m: M, s: State<P>, l: Ledger<P>, t: State<P>, k: Ledger<P>,
                                              ps: seq<P>, acts: seq<Act>, i: nat)
    requires i <= |ps|
  {
    && Inv(n, t, k, {}) && Others(l, k, Members(ps)) && k.got == l.got && Untouched(s, l, t, k)
    && Distinct(ps) && (forall p :: p in ps ==> p in k.place) && AllIn(k, ps[i..], Hand)
    && forall j :: 0 <= j < i ==> Obeyed(n, m, k, ps[j], ActAt(acts, j))
  }

  lemma NextInHand<M(!new), P(!new)>(n: Net<M>, m: M, s: State<P>, l: Ledger<P>, t: State<P>, k: Ledger<P>,
                                     ps: seq<P>, acts: seq<Act>, i: nat)
    requires i < |ps| && Scattered(n, m, s, l, t, k, ps, acts, i)
    ensures Inv(n, t, k, {}) && ps[i] in k.place && k.place[ps[i]] == Hand
  {
    hide Inv, Others, Untouched, Obeyed;
    assert ps[i..][0] == ps[i];
  }

  lemma ObeyedOn<M(!new), P(!new)>(n: Net<M>, m: M, l: Ledger<P>, k: Ledger<P>, qs: set<P>, p: P, act: Act)
    requires Obeyed(n, m, l, p, act) && Others(l, k, qs) && p !in qs
    ensures Obeyed(n, m, k, p, act)
  {
    assert p in l.place && !l.place[p].In? ==> Still(l, p);
  }

  // Who is not in hand before is not in hand after another packet was handled.
  lemma HandShrinks<P(!new)>(store: map<nat, seq<P>>, l: Ledger<P>, k: Ledger<P>, ps: seq<P>)
    requires PlacesOk(store, l) && ps != [] && Distinct(ps) && AllIn(l, ps, Hand) && Others(l, k, {ps[0]})
    requires ps[0] in k.place && k.place[ps[0]] != Hand
    ensures AllIn(k, ps[1..], Hand)
  {
    forall p | p in k.place ensures k.place[p] == Hand <==> p in ps[1..] {
      assert p in ps <==> p == ps[0] || p in ps[1..];
      assert Still(l, p) || Bound(l, p, l.home[l.place[p].batch].g);
    }
  }

  lemma ObeyedPlace<M(!new), P(!new)>(n: Net<M>, m: M, l: Ledger<P>, p: P, act: Act)
    requires Obeyed(n, m, l, p, act)
    ensures p in l.place && l.place[p] != Hand
  {
  }

  lemma ScatterStep<M(!new), P(!new)>(n: Net<M>, m: M, s: State<P>, l: Ledger<P>, t: State<P>, k: Ledger<P>,
                                      u: State<P>, j: Ledger<P>, ps: seq<P>, acts: seq<Act>, i: nat)
    requires i < |ps| && Scattered(n, m, s, l, t, k, ps, acts, i)
    requires Inv(n, u, j, {}) && Others(k, j, {ps[i]}) && j.got == k.got && Untouched(t, k, u, j)
    requires Obeyed(n, m, j, ps[i], ActAt(acts, i))
    ensures Scattered(n, m, s, l, u, j, ps, acts, i + 1)
  {
    hide Inv, Others, Untouched, Obeyed, AllIn, Members;
    OthersOn(l, k, j, Members(ps), {ps[i]});
    MemberOf(ps, i);
    UntouchedOn(s, l, t, k, u, j);
    ObeyedPlace(n, m, j, ps[i], ActAt(acts, i));
    HandNext(n, t, k, j, ps, i);
    forall x | 0 <= x < i ensures Obeyed(n, m, j, ps[x], ActAt(acts, x)) {
      ObeyedOn(n, m, k, j, {ps[i]}, ps[x], ActAt(acts, x));
    }
  }

  lemma MemberOf<P>(ps: seq<P>, i: nat)
    requires i < |ps|
    ensures Members(ps) + {ps[i]} == Members(ps)
  {
  }

  lemma HandNext<M(!new), P(!new)>(n: Net<M>, s: State<P>, l: Ledger<P>, k: Ledger<P>, ps: seq<P>, i: nat)
    requires Inv(n, s, l, {}) && i < |ps| && Distinct(ps) && AllIn(l, ps[i..], Hand) && Others(l, k, {ps[i]})
    requires ps[i] in k.place && k.place[ps[i]] != Hand
    ensures AllIn(k, ps[i + 1..], Hand) && k.place.Keys == l.place.Keys
  {
    hide AllIn, WellFormed, BatchesOk, PlacesOk, LogsOk, DropsOk, RefsOk;
    assert ps[i..][0] == ps[i] && ps[i..][1..] == ps[i + 1..];
    HandShrinks(s.store, l, k, ps[i..]);
  }

  lemma ScatterEnd<M(!new), P(!new)>(n: Net<M>, m: M, s: State<P>, l: Ledger<P>, t: State<P>, k: Ledger<P>,
                                     ps: seq<P>, acts: seq<Act>)
    requires Scattered(n, m, s, l, t, k, ps, acts, |ps|)
    ensures Inv(n, t, k, {}) && Others(l, k, Members(ps)) && k.got == l.got && AllIn(k, [], Hand)
    ensures forall j :: 0 <= j < |ps| ==> Obeyed(n, m, k, ps[j], ActAt(acts, j))
  {
    assert ps[|ps|..] == [];
  }

  lemma StillThere<P(!new)>(s: State<P>, l: Ledger<P>, t: State<P>, k: Ledger<P>, b: nat)
    requires b in s.store && b < s.idx && b !in l.home
    ensures Untouched(s, l, t, k) ==> b in t.store && t.store[b] == s.store[b]
  {
  }

  lemma DropObeyed<M(!new), P(!new)>(n: Net<M>, m: M, l: Ledger<P>, p: P)
    requires p in l.place && l.place[p] in {Dead, Freed}
    ensures Obeyed(n, m, l, p, Drop)
  {
  }

  lemma KeepObeyed<M(!new), P(!new)>(n: Net<M>, m: M, l: Ledger<P>, p: P)
    requires p in l.place && l.place[p] == Kept
    ensures Obeyed(n, m, l, p, Keep)
  {
  }

  // A module passes its whole batch on, or decides packet by packet.
  datatype Plan = Forward(ogate: nat) | Scatter(acts: seq<Act>)

  function Decision(plan: Plan, i: nat): Act {
    match plan
    case Forward(o) => Emit(o)
    case Scatter(acts) => ActAt(acts, i)
  }

  // The gate to run next and the packets waiting there.
  ghost function Upcoming<P>(s: State<P>): (nat, seq<P>) {
    var r := if s.next.Some? then s.next.value else if s.queue != [] then s.queue[0].val else Ref(0, 0);
    (r.gate, if r.batch in s.store then s.store[r.batch] else [])
  }

  // One batch was handed to the module at gate g: each of its packets had been
  // sent there, is now logged there once more and was treated as decided. All
  // other packets are as before.
  ghost predicate Delivered<M(!new), P(!new)>(n: Net<M>, l: Ledger<P>, k: Ledger<P>, g: nat, ps: seq<P>, plan: Plan) {
    && g in n.igates && ps != [] && Distinct(ps) && l.got.Keys == k.got.Keys
    && (forall i :: 0 <= i < |ps| ==> Bound(l, ps[i], g) && Obeyed(n, n.igates[g].mod, k, ps[i], Decision(plan, i)))
    && (forall p :: p in l.got ==> p in k.got && k.got[p] == if p in ps then l.got[p] + [g] else l.got[p])
    && Others(l, k, Members(ps))
  }

  // Packet p waits at gate h, in a batch that is queued or next in the chain.
  ghost predicate Waits<P>(l: Ledger<P>, p: P, h: nat, chained: bool) {
    Bound(l, p, h) && if chained then l.home[l.place[p].batch].Chained? else l.home[l.place[p].batch].Queued?
  }

  // It is the turn of the packets ps at gate g: they are the ones in the chain, at
  // a gate that is not mergeable; or there is no chain, and of all gates at which
  // packets wait none has a lower priority number. Every packet under way waits.
  ghost predicate Turn<M(!new), P(!new)>(n: Net<M>, l: Ledger<P>, g: nat, ps: seq<P>) {
    && g in n.igates && (forall p :: p in l.place && l.place[p].In? ==> l.place[p].batch in l.home)
    && (forall p, h :: Bound(l, p, h) ==> h in n.igates && (Waits(l, p, h, true) || Waits(l, p, h, false)))
    && if exists p, h :: Waits(l, p, h, true) then
         !n.igates[g].mergeable && forall p, h :: Waits(l, p, h, true) <==> p in ps && h == g
       else forall p, h :: Bound(l, p, h) ==> n.igates[g].priority <= n.igates[h].priority
  }

  lemma LeastFirst<M(!new)>(n: Net<M>, q: seq<Entry<Ref>>, home: map<nat, Loc>, b: nat)
    requires QueueOk(n, q, home) && q != [] && b in home && home[b].Queued? && home[b].g in n.igates
    ensures q[0].val.gate in n.igates && n.igates[q[0].val.gate].priority <= n.igates[home[b].g].priority
  {
    assert q[0] in q;
    assert EntryOf(n, home[b].g, b) in multiset(q);
    TopIsMinimumOf(q, EntryOf(n, home[b].g, b));
  }

  lemma AtGates<M(!new), P(!new)>(n: Net<M>, s: State<P>, l: Ledger<P>, p: P, h: nat)
    requires Inv(n, s, l, {}) && Calm(n, s.table, l.home) && Bound(l, p, h)
    ensures h in n.igates && (Waits(l, p, h, true) || Waits(l, p, h, false))
  {
    hide BatchesOk, PlacesOk, LogsOk, DropsOk, WellFormed, QueueOk, NextOk;
  }

  lemma ChainTurn<M(!new), P(!new)>(n: Net<M>, s: State<P>, l: Ledger<P>, p: P, h: nat)
    requires Inv(n, s, l, {}) && s.next.Some? && s.next.value.batch in s.store
    ensures var r := s.next.value;
      && r.gate in n.igates && !n.igates[r.gate].mergeable && (Waits(l, p, h, true) <==> p in s.store[r.batch] && h == r.gate)
  {
    hide LogsOk, DropsOk, WellFormed, QueueOk, TableOk, Distinct;
    var r := s.next.value;
    assert BatchOk(s.store, s.idx, l.place, r.batch, {});
  }

  lemma NoChain<M(!new), P(!new)>(n: Net<M>, s: State<P>, l: Ledger<P>, p: P, h: nat)
    requires Inv(n, s, l, {}) && s.next == None
    ensures !Waits(l, p, h, true)
  {
    hide BatchesOk, PlacesOk, LogsOk, DropsOk, WellFormed, QueueOk, TableOk;
  }

  lemma ChainMember<M(!new), P(!new)>(n: Net<M>, s: State<P>, l: Ledger<P>)
    requires Inv(n, s, l, {}) && s.next.Some? && s.next.value.batch in s.store
    ensures s.next.value.gate in n.igates && !n.igates[s.next.value.gate].mergeable && s.store[s.next.value.batch] != []
  {
    hide PlacesOk, LogsOk, DropsOk, WellFormed, QueueOk, TableOk, Distinct;
    assert BatchOk(s.store, s.idx, l.place, s.next.value.batch, {});
  }

  lemma TurnChained<M(!new), P(!new)>(n: Net<M>, s: State<P>, l: Ledger<P>)
    requires Inv(n, s, l, {}) && Calm(n, s.table, l.home) && s.next.Some? && s.next.value.batch in s.store
    ensures Turn(n, l, s.next.value.gate, s.store[s.next.value.batch])
  {
    hide Inv, Calm, Waits;
    var g, ps := s.next.value.gate, s.store[s.next.value.batch];
    forall p, h | Bound(l, p, h) ensures h in n.igates && (Waits(l, p, h, true) || Waits(l, p, h, false)) {
      AtGates(n, s, l, p, h);
    }
    forall p, h ensures Waits(l, p, h, true) <==> p in ps && h == g { ChainTurn(n, s, l, p, h); }
    ChainMember(n, s, l);
    QueueFacts(n, s, l);
    assert ps[0] in ps && Waits(l, ps[0], g, true);
  }

  lemma TurnQueued<M(!new), P(!new)>(n: Net<M>, s: State<P>, l: Ledger<P>)
    requires Inv(n, s, l, {}) && Calm(n, s.table, l.home) && s.next == None && s.queue != [] && s.queue[0].val.batch in s.store
    requires s.queue[0].val.gate in n.igates
    ensures Turn(n, l, s.queue[0].val.gate, s.store[s.queue[0].val.batch])
  {
    hide Inv, Calm, QueueOk;
    var g := s.queue[0].val.gate;
    QueueFacts(n, s, l);
    forall p, h ensures !Waits(l, p, h, true) { NoChain(n, s, l, p, h); }
    forall p, h | Bound(l, p, h) ensures h in n.igates && Waits(l, p, h, false) && n.igates[g].priority <= n.igates[h].priority {
      AtGates(n, s, l, p, h);
      LeastFirst(n, s.queue, l.home, l.place[p].batch);
    }
  }

  // The batch taken next is the one whose turn it is.
  lemma TurnOf<M(!new), P(!new)>(n: Net<M>, s: State<P>, l: Ledger<P>)
    requires Inv(n, s, l, {}) && Calm(n, s.table, l.home) && (s.next.Some? || s.queue != [])
    ensures var up := Upcoming(s); Turn(n, l, up.0, up.1)
  {
    hide Inv, Calm, Turn;
    UpcomingFacts(n, s, l);
    if s.next.Some? { TurnChained(n, s, l); } else { TurnQueued(n, s, l); }
  }

  lemma QueueFacts<M(!new), P(!new)>(n: Net<M>, s: State<P>, l: Ledger<P>)
    requires Inv(n, s, l, {})
    ensures QueueOk(n, s.queue, l.home) && forall p :: p in l.place && l.place[p].In? ==> l.place[p].batch in l.home
  {
  }

  lemma HeapFact<M(!new), P(!new)>(n: Net<M>, s: State<P>, l: Ledger<P>)
    requires Inv(n, s, l, {})
    ensures IsHeap(s.queue)
  {
  }

  lemma TakeInHand<M(!new), P(!new)>(n: Net<M>, s: State<P>, l: Ledger<P>, b: nat)
    requires Inv(n, s, l, {}) && b in l.home && AllIn(l, [], Hand) && AllIn(l, s.store[b], In(b))
    requires BatchOk(s.store, s.idx, l.place, b, {})
    ensures var k := Taken(l, b);
      && InHand(s.store, s.idx, k, b) && AllIn(k, s.store[b], Hand) && b in s.store && s.store[b] != [] && l.home[b].g in n.igates
      && forall t: map<nat, nat> :: Calm(n, t, l.home) ==> Calm(n, t, k.home)
  {
    hide BatchesOk, PlacesOk, LogsOk, DropsOk, WellFormed, QueueOk, NextOk, TableOk, Distinct;
  }

  lemma InHandFacts<M(!new), P(!new)>(n: Net<M>, s: State<P>, l: Ledger<P>, g: nat)
    requires Inv(n, s, l, {}) && g in n.igates
    ensures n.igates[g].mod in n.ogates
  {
  }

  lemma HandSame<M(!new), P(!new)>(n: Net<M>, s: State<P>, l: Ledger<P>, k: Ledger<P>)
    requires Inv(n, s, l, {}) && SameBounds(l, k) && AllIn(l, [], Hand)
    ensures AllIn(k, [], Hand)
  {
    BoundsOthers(l, k, {});
    HandsEmpty(n, s, l, k, []);
  }

  // Packets that were handled are not in hand, others are not taken in hand.
  lemma HandsEmpty<M(!new), P(!new)>(n: Net<M>, s: State<P>, l: Ledger<P>, k: Ledger<P>, ps: seq<P>)
    requires Inv(n, s, l, {}) && AllIn(l, ps, Hand) && Others(l, k, Members(ps))
    requires forall p :: p in ps && p in k.place ==> k.place[p] != Hand
    ensures AllIn(k, [], Hand)
  {
    hide WellFormed, BatchesOk, LogsOk, DropsOk, RefsOk;
    forall p | p in k.place && p !in ps ensures k.place[p] != Hand {
      assert Still(l, p) || Bound(l, p, l.home[l.place[p].batch].g);
    }
  }

  lemma PassedOn<M(!new), P(!new)>(n: Net<M>, m: M, s: State<P>, l: Ledger<P>, k: Ledger<P>, ps: seq<P>, i: nat)
    requires Inv(n, s, l, {}) && AllIn(l, ps, Hand) && Others(l, k, Members(ps))
    requires forall p :: p in ps ==> Obeyed(n, m, k, p, Emit(i))
    ensures AllIn(k, [], Hand) && forall j :: 0 <= j < |ps| ==> Obeyed(n, m, k, ps[j], Emit(i))
  {
    hide Inv, Others, AllIn, Obeyed;
    forall p | p in ps ensures p in k.place && k.place[p] != Hand { ObeyedPlace(n, m, k, p, Emit(i)); }
    HandsEmpty(n, s, l, k, ps);
  }

  lemma TakenGot<P(!new)>(l: Ledger<P>, b: nat, ps: seq<P>)
    requires b in l.home && AllIn(l, ps, In(b)) && l.got.Keys == l.place.Keys
    ensures var k := Taken(l, b);
      && k.got.Keys == l.got.Keys
      && forall p :: p in l.got ==> k.got[p] == if p in ps then l.got[p] + [l.home[b].g] else l.got[p]
  {
  }

  lemma LogKeys<M(!new), P(!new)>(n: Net<M>, s: State<P>, l: Ledger<P>, b: nat)
    requires Inv(n, s, l, {}) && b in l.home && b in s.store
    ensures l.sent.Keys == l.got.Keys == l.place.Keys && forall p :: p in s.store[b] ==> p in l.place
  {
    assert BatchOk(s.store, s.idx, l.place, b, {});
  }

  // The pieces of one round together.
  lemma DeliveredBy<M(!new), P(!new)>(n: Net<M>, k: Ledger<P>, b: nat, t: Ledger<P>, l: Ledger<P>, ps: seq<P>, plan: Plan)
    requires b in k.home && k.home[b].g in n.igates && ps != [] && Distinct(ps) && k.sent.Keys == k.got.Keys == k.place.Keys
    requires AllIn(k, ps, In(b)) && AllIn(k, [], Hand) && forall p :: p in ps ==> p in k.place
    requires Others(Taken(k, b), t, Members(ps)) && t.got == Taken(k, b).got && SameBounds(t, l)
    requires forall i :: 0 <= i < |ps| ==> Obeyed(n, n.igates[k.home[b].g].mod, t, ps[i], Decision(plan, i))
    ensures Delivered(n, k, l, k.home[b].g, ps, plan)
  {
    hide Obeyed, AllIn, Taken, SameBounds, Others, Members, Decision, Distinct, Bound;
    GotSame(t, l);
    TakeOthers(k, b, ps);
    TakenGot(k, b, ps);
    OthersChain(k, Taken(k, b), t, l, Members(ps));
    ObeyedAfter(n, n.igates[k.home[b].g].mod, t, l, ps, plan);
  }

  lemma OthersChain<P(!new)>(l: Ledger<P>, k: Ledger<P>, t: Ledger<P>, u: Ledger<P>, ps: set<P>)
    requires Others(l, k, ps) && Others(k, t, ps) && SameBounds(t, u)
    ensures Others(l, u, ps)
  {
    hide Others, SameBounds;
    SetTwice(ps);
    OthersOn(l, k, t, ps, ps);
    BoundsOthers(t, u, ps);
    OthersOn(l, t, u, ps, ps);
  }

  lemma ObeyedAfter<M(!new), P(!new)>(n: Net<M>, m: M, t: Ledger<P>, l: Ledger<P>, ps: seq<P>, plan: Plan)
    requires SameBounds(t, l) && forall i :: 0 <= i < |ps| ==> Obeyed(n, m, t, ps[i], Decision(plan, i))
    ensures forall i :: 0 <= i < |ps| ==> Obeyed(n, m, l, ps[i], Decision(plan, i))
  {
    hide Obeyed, SameBounds, Others, Decision;
    BoundsOthers(t, l, {});
    forall i | 0 <= i < |ps| ensures Obeyed(n, m, l, ps[i], Decision(plan, i)) {
      ObeyedOn(n, m, t, l, {}, ps[i], Decision(plan, i));
    }
  }

  lemma SetTwice<P>(s: set<P>)
    ensures s + s == s
  {
  }

  lemma GotSame<P(!new)>(l: Ledger<P>, k: Ledger<P>)
    requires SameBounds(l, k)
    ensures k.got == l.got
  {
  }

  // ---- whole runs ----

  // What is left of the way of a packet.
  ghost function Weight<P>(l: Ledger<P>, height: map<nat, nat>, p: P): nat {
    if p in l.place && l.place[p].In? && l.place[p].batch in l.home && l.home[l.place[p].batch].g in height
    then height[l.home[l.place[p].batch].g] + 1 else 0
  }

  ghost function Total<P>(l: Ledger<P>, height: map<nat, nat>, ps: seq<P>): nat {
    if ps == [] then 0 else Weight(l, height, ps[0]) + Total(l, height, ps[1..])
  }

  lemma {:induction false} TotalDrops<P(!new)>(l: Ledger<P>, k: Ledger<P>, height: map<nat, nat>, ps: seq<P>, q: P)
    requires forall p :: p in ps ==> Weight(k, height, p) <= Weight(l, height, p)
    requires q in ps ==> Weight(k, height, q) < Weight(l, height, q)
    ensures Total(k, height, ps) <= Total(l, height, ps)
    ensures q in ps ==> Total(k, height, ps) < Total(l, height, ps)
  {
    if ps != [] {
      TotalDrops(l, k, height, ps[1..], q);
      assert Weight(k, height, ps[0]) <= Weight(l, height, ps[0]);
    }
  }

  // A round brings its packets further down and leaves the others.
  lemma RoundDescends<M(!new), P(!new)>(n: Net<M>, s: State<P>, l: Ledger<P>, k: Ledger<P>, g: nat, ps: seq<P>, plan: Plan,
                                        height: map<nat, nat>, p: P)
    requires Inv(n, s, l, {}) && Descends(n, height) && Delivered(n, l, k, g, ps, plan) && p in l.place
    ensures Weight(k, height, p) <= Weight(l, height, p)
    ensures p in ps ==> Weight(k, height, p) < Weight(l, height, p)
  {
    hide BatchesOk, LogsOk, DropsOk, RefsOk, Distinct;
    if p in ps {
      var i :| 0 <= i < |ps| && ps[i] == p;
      assert Bound(l, p, g);
      OneLower(n, k, g, p, Decision(plan, i), height);
    } else {
      assert Still(l, p) || Bound(l, p, l.home[l.place[p].batch].g);
    }
  }

  lemma OneLower<M(!new), P(!new)>(n: Net<M>, k: Ledger<P>, g: nat, p: P, act: Act, height: map<nat, nat>)
    requires WellFormed(n) && Descends(n, height) && g in n.igates && Obeyed(n, n.igates[g].mod, k, p, act)
    ensures Weight(k, height, p) <= height[g]
  {
    var m := n.igates[g].mod;
    if act.Emit? && m in n.ogates && act.ogate < |n.ogates[m]| && n.ogates[m][act.ogate].Some? {
      assert IsOGate(n, m, act.ogate, n.ogates[m][act.ogate].value);
    }
  }

  // One gate is connected behind the module of the other.
  ghost predicate Linked<M(!new)>(n: Net<M>, g: nat, h: nat) {
    g in n.igates && exists i, o :: IsOGate(n, n.igates[g].mod, i, o) && o.igate == h
  }

  // A way through the graph from output gate 0 of task module m.
  ghost predicate Route<M(!new)>(n: Net<M>, m: M, r: seq<nat>) {
    && (r != [] ==> exists o :: IsOGate(n, m, 0, o) && o.igate == r[0])
    && forall i :: 0 < i < |r| ==> Linked(n, r[i - 1], r[i])
  }

  // Packets keep to routes.
  lemma RoundRoutes<M(!new), P(!new)>(n: Net<M>, m: M, s: State<P>, l: Ledger<P>, t: State<P>, k: Ledger<P>, g: nat, ps: seq<P>,
                                      plan: Plan, p: P)
    requires Inv(n, s, l, {}) && Inv(n, t, k, {}) && Delivered(n, l, k, g, ps, plan)
    requires p in l.place && Route(n, m, l.sent[p])
    ensures p in k.place && Route(n, m, k.sent[p])
  {
    hide BatchesOk, DropsOk, RefsOk, WellFormed, Distinct, Route, PlacesOk;
    assert p in k.place;
    if p in ps {
      var i :| 0 <= i < |ps| && ps[i] == p;
      assert Bound(l, p, g);
      assert k.got[p] == l.sent[p] && l.sent[p][|l.sent[p]| - 1] == g;
      RouteOn(n, m, k, g, p, Decision(plan, i));
    }
  }

  lemma RouteOn<M(!new), P(!new)>(n: Net<M>, m: M, k: Ledger<P>, g: nat, p: P, act: Act)
    requires LogsOk(k) && g in n.igates && Obeyed(n, n.igates[g].mod, k, p, act)
    requires p in k.place && Route(n, m, k.got[p]) && k.got[p] != [] && k.got[p][|k.got[p]| - 1] == g
    ensures Route(n, m, k.sent[p])
  {
    var mod := n.igates[g].mod;
    if act.Emit? && mod in n.ogates && act.ogate < |n.ogates[mod]| && n.ogates[mod][act.ogate].Some? {
      var o := n.ogates[mod][act.ogate].value;
      assert IsOGate(n, mod, act.ogate, o);
      assert Bound(k, p, o.igate);
      RouteExtends(n, m, k.got[p], o.igate);
    } else {
      assert Still(k, p);
    }
  }

  lemma RouteExtends<M(!new)>(n: Net<M>, m: M, r: seq<nat>, h: nat)
    requires Route(n, m, r) && r != [] && Linked(n, r[|r| - 1], h)
    ensures Route(n, m, r + [h])
  {
    var t := r + [h];
    assert t[0] == r[0];
    forall i | 0 < i < |t| ensures Linked(n, t[i - 1], t[i]) {
      assert i < |r| ==> Linked(n, r[i - 1], r[i]);
    }
  }

  // The ledger when RunTask has filled its batch.
  ghost function Opening<P(!new)>(ps: seq<P>): Ledger<P> {
    Ledger(map[], map p | p in ps :: Hand, map p | p in ps :: [], map p | p in ps :: [], [])
  }

  lemma OpeningOk<M(!new), P(!new)>(n: Net<M>, ps: seq<P>)
    requires WellFormed(n) && Distinct(ps) && |ps| <= MAX_BURST
    ensures var l := Opening(ps); var s := State(map[0 := ps], 1, None, map[], [], [], 0);
      && Inv(n, s, l, {}) && Calm(n, s.table, l.home) && InHand(s.store, s.idx, l, 0) && AllIn(l, ps, Hand)
  {
  }

  // After the first emission every packet is on a route or freed.
  lemma FirstRoutes<M(!new), P(!new)>(n: Net<M>, m: M, s: State<P>, k: Ledger<P>, ps: seq<P>)
    requires Inv(n, s, k, {}) && Others(Opening(ps), k, Members(ps)) && k.got == Opening(ps).got
    requires m in n.ogates && forall p :: p in ps ==> Obeyed(n, m, k, p, Emit(0))
    ensures k.place.Keys == Members(ps) == k.sent.Keys && forall p :: p in k.place ==> Route(n, m, k.sent[p])
  {
    hide BatchesOk, DropsOk, RefsOk, WellFormed, PlacesOk;
    forall p | p in k.place ensures Route(n, m, k.sent[p]) {
      assert p in ps;
      if 0 < |n.ogates[m]| && n.ogates[m][0].Some? {
        var o := n.ogates[m][0].value;
        assert IsOGate(n, m, 0, o);
        assert Bound(k, p, o.igate);
        assert k.sent[p] == [o.igate];
      } else {
        assert Still(k, p);
      }
    }
  }

  // Nothing waits: then no batch is anywhere, and every packet is dropped or kept.
  lemma NothingPending<M(!new), P(!new)>(n: Net<M>, s: State<P>, l: Ledger<P>)
    requires Inv(n, s, l, {}) && Calm(n, s.table, l.home) && s.next == None && s.queue == [] && AllIn(l, [], Hand)
    ensures l.home == map[] && s.table == map[]
    ensures forall p :: p in l.place ==> l.place[p] in {Dead, Freed, Kept}
  {
    forall b ensures b !in l.home {
      if b in l.home { HomeSomewhere(n, s, l, b); }
    }
  }

  lemma HomeSomewhere<M(!new), P(!new)>(n: Net<M>, s: State<P>, l: Ledger<P>, b: nat)
    requires Inv(n, s, l, {}) && b in l.home && Calm(n, s.table, l.home)
    ensures s.next.Some? || s.queue != []
  {
    hide BatchesOk, PlacesOk, LogsOk, DropsOk, WellFormed;
    if l.home[b].Queued? {
      assert EntryOf(n, l.home[b].g, b) in multiset(s.queue);
    }
  }

  // The packets left in the dead batch are freed last.
  lemma LastFree<M(!new), P(!new)>(n: Net<M>, s: State<P>, l: Ledger<P>)
    requires Inv(n, s, l, {}) && forall p :: p in l.place ==> l.place[p] in {Dead, Freed, Kept}
    ensures var k := FreedAll(l, s.dead);
      && Inv(n, s.(dead := [], drops := s.drops + |s.dead|), k, {}) && k.sent == l.sent && k.got == l.got
      && k.place.Keys == l.place.Keys && (forall p :: p in k.place ==> k.place[p] in {Freed, Kept}) && Others(l, k, {})
  {
    hide BatchesOk, PlacesOk, LogsOk, RefsOk, WellFormed;
    FreeKeeps(n, s, l, s.dead, []);
    forall p | p in l.place ensures Still(l, p) {}
  }

  datatype Round<P> = Round(gate: nat, ps: seq<P>, plan: Plan)

  // A history of rounds: each hands over one batch, and the module at its gate
  // acts as decided from the round's number, its gate and its packets.
  ghost predicate History<M(!new), P(!new)>(n: Net<M>, decide: (nat, M, nat, seq<P>) -> Plan, trace: seq<Ledger<P>>,
                                            rounds: seq<Round<P>>) {
    && |trace| == |rounds| + 1
    && forall i :: 0 <= i < |rounds| ==> RoundAt(n, decide, trace, rounds, i)
  }

  ghost predicate RoundAt<M(!new), P(!new)>(n: Net<M>, decide: (nat, M, nat, seq<P>) -> Plan, trace: seq<Ledger<P>>,
                                            rounds: seq<Round<P>>, i: nat)
    requires i < |rounds| == |trace| - 1
  {
    var r := rounds[i];
    && Delivered(n, trace[i], trace[i + 1], r.gate, r.ps, r.plan) && r.gate in n.igates && Turn(n, trace[i], r.gate, r.ps)
    && r.plan == decide(i, n.igates[r.gate].mod, n.igates[r.gate].idx, r.ps)
  }

  lemma HistoryGrows<M(!new), P(!new)>(n: Net<M>, decide: (nat, M, nat, seq<P>) -> Plan, trace: seq<Ledger<P>>,
                                       rounds: seq<Round<P>>, l: Ledger<P>, r: Round<P>)
    requires History(n, decide, trace, rounds) && r.gate in n.igates
    requires Delivered(n, trace[|rounds|], l, r.gate, r.ps, r.plan) && Turn(n, trace[|rounds|], r.gate, r.ps)
    requires r.plan == decide(|rounds|, n.igates[r.gate].mod, n.igates[r.gate].idx, r.ps)
    ensures History(n, decide, trace + [l], rounds + [r])
  {
    hide Delivered, Turn;
    var t, q := trace + [l], rounds + [r];
    forall i | 0 <= i < |q| ensures RoundAt(n, decide, t, q, i) {
      assert i < |rounds| ==> RoundAt(n, decide, trace, rounds, i);
    }
  }

  // The account of a finished run: every packet was handed to a module wherever
  // it was sent, along a way through the graph, and ended freed, once, or kept.
  ghost predicate Accounted<M(!new), P(!new)>(n: Net<M>, m: M, l: Ledger<P>, ps: seq<P>, drops: nat) {
    && l.place.Keys == l.sent.Keys == l.got.Keys == Members(ps)
    && (forall p :: p in ps ==> l.sent[p] == l.got[p] && Route(n, m, l.got[p]) && l.place[p] in {Freed, Kept})
    && (forall p :: p in l.freed <==> p in ps && l.place[p] == Freed) && Distinct(l.freed) && drops == |l.freed|
  }

  lemma RunAccounted<M(!new), P(!new)>(n: Net<M>, m: M, s: State<P>, l: Ledger<P>, ps: seq<P>)
    requires Inv(n, s, l, {}) && l.place.Keys == Members(ps) && forall p :: p in l.place ==> l.place[p] in {Freed, Kept}
    requires l.sent.Keys == l.place.Keys && forall p :: p in l.place ==> Route(n, m, l.sent[p])
    ensures Accounted(n, m, l, ps, s.drops)
  {
    hide BatchesOk, PlacesOk, RefsOk, WellFormed, Route;
    forall p | p in ps ensures p in l.place && Still(l, p) { assert p in Members(ps); }
  }

  // Progress of the run loop.
  ghost predicate Running<M(!new), P(!new)>(n: Net<M>, m: M, s: State<P>, l: Ledger<P>, ps: seq<P>) {
    && Inv(n, s, l, {}) && Calm(n, s.table, l.home) && AllIn(l, [], Hand)
    && l.place.Keys == l.sent.Keys == Members(ps) && forall p :: p in l.place ==> Route(n, m, l.sent[p])
  }

  // A round keeps a run going, on every graph.
  lemma RoundRuns<M(!new), P(!new)>(n: Net<M>, m: M, s: State<P>, l: Ledger<P>, t: State<P>, k: Ledger<P>, ps: seq<P>,
                                    g: nat, qs: seq<P>, plan: Plan)
    requires Running(n, m, s, l, ps) && Delivered(n, l, k, g, qs, plan)
    requires Inv(n, t, k, {}) && Calm(n, t.table, k.home) && AllIn(k, [], Hand)
    ensures Running(n, m, t, k, ps)
  {
    DeliveredKeys(n, l, k, g, qs, plan);
    hide Inv, Calm, AllIn, Delivered, Route;
    forall p | p in k.place ensures Route(n, m, k.sent[p]) { RoundRoutes(n, m, s, l, t, k, g, qs, plan, p); }
  }

  // Without cycles it brings the run closer to its end.
  lemma RoundSinks<M(!new), P(!new)>(n: Net<M>, m: M, s: State<P>, l: Ledger<P>, k: Ledger<P>, ps: seq<P>,
                                     g: nat, qs: seq<P>, plan: Plan, height: map<nat, nat>)
    requires Running(n, m, s, l, ps) && Delivered(n, l, k, g, qs, plan) && Descends(n, height)
    ensures Total(k, height, ps) < Total(l, height, ps)
  {
    DeliveredKeys(n, l, k, g, qs, plan);
    hide Inv, Calm, AllIn, Delivered, Descends, Weight, Route;
    forall p | p in ps ensures Weight(k, height, p) <= Weight(l, height, p) && (p in qs ==> Weight(k, height, p) < Weight(l, height, p)) {
      assert p in Members(ps);
      RoundDescends(n, s, l, k, g, qs, plan, height, p);
    }
    assert qs[0] in Members(ps);
    TotalDrops(l, k, height, ps, qs[0]);
  }

  lemma DeliveredKeys<M(!new), P(!new)>(n: Net<M>, l: Ledger<P>, k: Ledger<P>, g: nat, qs: seq<P>, plan: Plan)
    requires Delivered(n, l, k, g, qs, plan)
    ensures k.place.Keys == l.place.Keys && k.sent.Keys == l.sent.Keys && qs != [] && qs[0] in l.place
  {
    assert Bound(l, qs[0], g);
  }

  lemma RunsFrom<M(!new), P(!new)>(n: Net<M>, m: M, s: State<P>, l: Ledger<P>, ps: seq<P>)
    requires Inv(n, s, l, {}) && Calm(n, s.table, l.home) && AllIn(l, [], Hand)
    requires l.place.Keys == Members(ps) == l.sent.Keys && forall p :: p in l.place ==> Route(n, m, l.sent[p])
    ensures Running(n, m, s, l, ps)
  {
  }

  lemma RunFacts<M(!new), P(!new)>(n: Net<M>, m: M, s: State<P>, l: Ledger<P>, ps: seq<P>)
    requires Running(n, m, s, l, ps)
    ensures Inv(n, s, l, {}) && Calm(n, s.table, l.home) && AllIn(l, [], Hand)
    ensures l.place.Keys == l.sent.Keys == Members(ps) && forall p :: p in l.place ==> Route(n, m, l.sent[p])
  {
  }

  lemma UpcomingFacts<M(!new), P(!new)>(n: Net<M>, s: State<P>, l: Ledger<P>)
    requires Inv(n, s, l, {}) && (s.next.Some? || s.queue != [])
    ensures var r := if s.next.Some? then s.next.value else s.queue[0].val;
            r.gate in n.igates && r.batch in s.store && (r.gate, s.store[r.batch]) == Upcoming(s)
  {
    var r := if s.next.Some? then s.next.value else s.queue[0].val;
    assert s.queue != [] ==> s.queue[0] in s.queue;
    assert r.batch in l.home;
    assert BatchOk(s.store, s.idx, l.place, r.batch, {});
  }

  class Task<P(==, !new), M(==, !new)> {
    const net: Net<M>
    var store: map<nat, seq<P>>
    var idx: nat
    var next: Option<Ref>
    var table: map<nat, nat>
    var queue: seq<Entry<Ref>>
    var dead: seq<P>
    var drops: nat
    var hooks: seq<nat>
    ghost var l: Ledger<P>

    ghost function S(): State<P>
      reads this
    {
      State(store, idx, next, table, queue, dead, drops)
    }

    // Puts batch b up to run at input gate g: as the next of a chain, merged
    // into a waiting batch, or queued.
    method PutUpBatch(g: nat, b: nat)
      requires g in net.igates && b in store && (g in table ==> table[g] in store) && IsHeap(queue)
      modifies this`store, this`next, this`table, this`queue
      ensures PutUp(net, old(S()), S(), g, b) && IsHeap(queue)
      ensures if old(next) == None && !net.igates[g].mergeable then next == Some(Ref(g, b)) && queue == old(queue) && store == old(store)
              else if g in old(table) && |old(store)[old(table)[g]]| + |old(store)[b]| <= MAX_BURST then
                next == old(next) && queue == old(queue) && store[old(table)[g]] == old(store)[old(table)[g]] + old(store)[b]
              else
                && next == old(next) && store == old(store) && g in table && table[g] == b
                && multiset(queue) == multiset(old(queue)) + multiset{Entry(net.igates[g].priority, Ref(g, b))}
    {
      hide IsHeap;
      match FateOf(next == None, net.igates[g].mergeable, if g in table then Some(|store[table[g]]|) else None, |store[b]|) {
        case Chain => next := Some(Ref(g, b));
        case Merge => store := store[table[g] := store[table[g]] + store[b]];
        case Queue =>
          table := table[g := b];
          queue := Push(queue, Entry(net.igates[g].priority, Ref(g, b)));
      }
    }

    // The same for a batch that holds packets.
    method AddToRun(g: nat, b: nat)
      requires Inv(net, S(), l, {}) && b in l.home && l.home[b] == Loose(g)
      modifies this`store, this`next, this`table, this`queue, this`l
      ensures Inv(net, S(), l, {}) && SameBounds(old(l), l)
      ensures Untouched(old(S()), old(l), S(), l) && SameHeld(net, old(S()), old(l), S(), l)
      ensures forall c :: c in l.home && l.home[c].Loose? ==> c != b && c in old(l).home && old(l).home[c].Loose?
      ensures PutUp(net, old(S()), S(), g, b)
    {
      hide Inv, SameBounds, Untouched, SameHeld, IsHeap;
      LooseBatch(net, S(), l, b, g);
      ghost var s, k := S(), l;
      PutUpBatch(g, b);
      match FateOf(s.next == None, net.igates[g].mergeable, if g in s.table then Some(|s.store[s.table[g]]|) else None, |s.store[b]|) {
        case Chain =>
          ChainKeeps(net, s, k, g, b);
          l := l.(home := l.home[b := Chained(g)]);
          AddFrame(net, s, k, S(), l, b, g, Chained(g));
        case Merge =>
          MergeKeeps(net, s, k, g, b);
          MergeFrame(net, s, k, b, g);
          l := Merged(l, b, s.table[g]);
        case Queue =>
          QueueKeeps(net, s, k, g, b, queue);
          l := l.(home := l.home[b := Queued(g)]);
          AddFrame(net, s, k, S(), l, b, g, Queued(g));
      }
    }

    // A new, empty batch.
    method AllocPacketBatch() returns (b: nat)
      modifies this`store, this`idx
      ensures b == old(idx) && S() == old(WithNew(S()))
    {
      b := idx;
      store, idx := store[b := []], idx + 1;
    }

    // EmitPacket at an output gate without hooks: the packet goes to the batch
    // waiting at the input gate, and when that is full to a new one, which is
    // put up while still empty. e are the gates whose batches were lost before.
    method EmitUnhooked(o: OGate, p: P, ghost e: set<nat>)
      requires Plain(S(), e) && o.igate in net.igates && o.igate !in e && o.id !in net.igates
      modifies this`store, this`idx, this`next, this`table, this`queue
      ensures Emitted(net, old(S()), S(), o, p)
      ensures o.id in table && EndsWith(S(), table[o.id], p)
      ensures WillRun(S(), table[o.id]) <==> !old(Loses(net, S(), o))
      ensures StillRuns(old(S()), S()) && Plain(S(), if old(Loses(net, S(), o)) then e + {o.id} else e - {o.id})
    {
      hide Plain, StillRuns, WillRun, Emitted, PutUp;
      ghost var s := S();
      PlainFacts(s, e);
      var at := BatchFor(table, o);
      var b;
      if at.Some? && |store[at.value]| < MAX_BURST {
        b := at.value;
        table := table[o.id := b];
        Named(net, s, o, b, e);
        StillRunsHere(s);
      } else {
        b := NewBatchFor(o, at.Some?, e);
      }
      ghost var u := S();
      GrowKeeps(u, b, p, if Loses(net, s, o) then e + {o.id} else e - {o.id});
      store := store[b := store[b] + [p]];
      StillRunsOn(s, u, S());
      EmittedInto(net, s, u, S(), o, p, b);
    }

    // A new batch for output gate o, put up while empty. The gate is pointed to
    // it before, if it had a batch already, and afterwards otherwise.
    method NewBatchFor(o: OGate, had: bool, ghost e: set<nat>) returns (b: nat)
      requires Plain(S(), e) && o.igate in net.igates && o.igate !in e && o.id !in net.igates
      requires had <==> BatchFor(table, o).Some?
      requires had ==> BatchFor(table, o).value in store && |store[BatchFor(table, o).value]| >= MAX_BURST
      modifies this`store, this`idx, this`next, this`table, this`queue
      ensures b == old(idx) && b in store && store[b] == [] && o.id in table && table[o.id] == b && Renewed(net, old(S()), S(), o)
      ensures StillRuns(old(S()), S()) && Plain(S(), if old(Loses(net, S(), o)) then e + {o.id} else e - {o.id})
      ensures WillRun(S(), b) <==> !old(Loses(net, S(), o))
    {
      hide WillRun, StillRuns, PutUp, Plain;
      ghost var s := S();
      NewKeeps(s, e);
      b := AllocPacketBatch();
      ghost var t := S();
      if had {
        NamedKeeps(t, o.id, b, e);
        table := table[o.id := b];
        ghost var u := S();
        StillRunsOn(s, t, u);
        PlainFacts(u, e + {o.id});
        PutUpBatch(o.igate, b);
        EmptyPutUp(net, u, S(), o.igate, b, e + {o.id});
        PlainFacts(S(), e + {o.id});
        assert e + {o.id} - {o.id} == e - {o.id};
        StillRunsOn(s, u, S());
      } else {
        PlainFacts(t, e);
        PutUpBatch(o.igate, b);
        ghost var u := S();
        EmptyPutUp(net, t, u, o.igate, b, e);
        NamedKeeps(u, o.id, b, e);
        table := table[o.id := b];
        StillRunsOn(s, t, u);
        StillRunsOn(s, u, S());
      }
    }

    // The packets ps emitted one after the other.
    method EmitOneTooMany(o: OGate, ps: seq<P>)
      requires Plain(S(), {}) && o.igate in net.igates && o.id !in net.igates && table == map[] && next == None && queue == []
      requires net.igates[o.igate].mergeable && |ps| == MAX_BURST + 1 && Distinct(ps)
      modifies this`store, this`idx, this`next, this`table, this`queue
      ensures forall b: nat :: WillRun(S(), b) && b in store ==> ps[MAX_BURST] !in store[b]
      ensures exists b: nat :: WillRun(S(), b) && b in store && store[b] == ps[..MAX_BURST]
    {
      hide Plain, WillRun, StillRuns, Emitted, Distinct;
      ghost var b := idx;
      assert Filling(net, S(), o, b, []) by { NothingYet(net, S(), o, b); }
      for i := 0 to MAX_BURST
        invariant Plain(S(), {}) && Filling(net, S(), o, b, ps[..i])
      {
        ghost var s := S();
        NotLost(net, s, o, b, ps[..i]);
        EmitUnhooked(o, ps[i], {});
        assert {} - {o.id} == {};
        FillsOne(net, s, S(), o, b, ps[..i], ps[i]);
        assert ps[..i + 1] == ps[..i] + [ps[i]];
      }
      ghost var s := S();
      EmitUnhooked(o, ps[MAX_BURST], {});
      Lost(net, s, S(), o, b, ps);
    }

    method DropPacket(p: P)
      requires Inv(net, S(), l, {}) && p in l.place && l.place[p] == Hand
      modifies this`dead, this`drops, this`l
      ensures Inv(net, S(), l, {}) && Others(old(l), l, {p}) && l.home == old(l).home && l.got == old(l).got
      ensures p in l.place && l.place[p] in {Dead, Freed} && l.sent == old(l).sent
      ensures var all := old(dead) + [p];
        if |all| < MAX_BURST then dead == all && drops == old(drops) && l.freed == old(l).freed
        else dead == [] && drops == old(drops) + |all| && l.freed == old(l).freed + all
    {
      hide Inv, Others;
      DropKeeps(net, S(), l, p);
      dead := dead + [p];
      l := l.(place := l.place[p := Dead]);
      if |dead| >= MAX_BURST {
        l := FreedAll(l, dead);
        drops := drops + |dead|;
        dead := [];
      }
    }

    // A new batch for output gate o.
    method AllocFor(o: OGate) returns (b: nat)
      requires Inv(net, S(), l, {}) && o.igate in net.igates && o.id !in net.igates && o.id !in table
      modifies this`store, this`idx, this`table, this`l
      ensures Inv(net, S(), l, {b}) && SameBounds(old(l), l) && Untouched(old(S()), old(l), S(), l)
      ensures b !in old(l).home && l.home == old(l).home[b := Held(o.igate, o.id)] && table == old(table)[o.id := b]
      ensures b in store && store[b] == []
    {
      hide Inv, SameBounds;
      HoldKeeps(net, S(), l, o.igate, o.id);
      NewBatch(net, S(), l);
      b := idx;
      store, idx, table := store[b := []], idx + 1, table[o.id := b];
      l := l.(home := l.home[b := Held(o.igate, o.id)]);
    }

    // The full batch of output gate o goes to run.
    method Flush(o: OGate)
      requires Inv(net, S(), l, {}) && o.id in table && o.id !in net.igates
      requires table[o.id] in l.home && l.home[table[o.id]] == Held(o.igate, o.id) && NoLoose(l.home)
      modifies this`store, this`next, this`table, this`queue, this`l
      ensures Inv(net, S(), l, {}) && SameBounds(old(l), l) && Untouched(old(S()), old(l), S(), l) && NoLoose(l.home)
      ensures forall x :: x !in net.igates ==> (x in table <==> x in old(table) && x != o.id)
      ensures forall x :: x !in net.igates && x in table && old(table)[x] in old(l).home ==>
                table[x] == old(table)[x] && table[x] in l.home && l.home[table[x]] == old(l).home[old(table)[x]]
    {
      hide Inv, SameBounds;
      LoosenKeeps(net, S(), l, o.id);
      ghost var s, k := S(), l;
      var b := table[o.id];
      table := table - {o.id};
      l := l.(home := l.home[b := Loose(o.igate)]);
      ghost var t, j := S(), l;
      AddToRun(o.igate, b);
      SameBoundsOn(k, j, l);
      UntouchedOn(s, k, t, j, S(), l);
    }

    // Puts one packet into the batch of output gate i of module m.
    method EmitPacket(m: M, p: P, i: nat)
      requires Inv(net, S(), l, {}) && HooksOk(net, m, table, l.home, hooks) && p in l.place && l.place[p] == Hand
      modifies this
      ensures Inv(net, S(), l, {}) && HooksOk(net, m, table, l.home, hooks)
      ensures Others(old(l), l, {p}) && l.got == old(l).got && Untouched(old(S()), old(l), S(), l)
      ensures Obeyed(net, m, l, p, Emit(i))
    {
      hide Inv, Others, SameBounds, Untouched, HooksOk, Bound, WellFormed;
      ghost var s, k := S(), l;
      HooksModule(net, m, table, l.home, hooks);
      if i >= |net.ogates[m]| || net.ogates[m][i] == None {
        DropPacket(p);
        UntouchedDrop(s, k, S(), l);
        return;
      }
      var o := net.ogates[m][i].value;
      GateFacts(net, S(), l, m, i, o);
      var b := BatchOf(m, i, o);
      ghost var t, j := S(), l;
      PlaceKept(k, j, p);
      AddKeeps(net, t, j, b, p);
      store := store[b := store[b] + [p]];
      l := PutIn(l, p, b, o.igate);
      UntouchedAdd(s, k, t, j, S(), l, b, p);
      BoundsOthers(k, j, {p});
      OthersOn(k, j, l, {p}, {p});
      assert {p} + {p} == {p};
    }

    // The batch of output gate o, with room for a packet.
    method BatchOf(m: M, i: nat, o: OGate) returns (b: nat)
      requires Inv(net, S(), l, {}) && HooksOk(net, m, table, l.home, hooks) && OGateAt(net, m, i, o)
      requires o.igate in net.igates && o.id !in net.igates
      modifies this
      ensures Inv(net, S(), l, {b}) && HooksOk(net, m, table, l.home, hooks)
      ensures SameBounds(old(l), l) && Untouched(old(S()), old(l), S(), l)
      ensures b in l.home && l.home[b] == Held(o.igate, o.id) && b in store && |store[b]| < MAX_BURST
    {
      hide Inv, SameBounds, Untouched, HooksOk, OGateAt;
      ghost var s, k := S(), l;
      if o.id !in table {
        b := AllocFor(o);
        HooksHold(net, m, s.table, k.home, hooks, i, o, b);
        hooks := hooks + [i];
        return;
      }
      HookedBatch(net, m, S(), l, hooks, i, o);
      b := table[o.id];
      if |store[b]| >= MAX_BURST {
        Flush(o);
        ghost var t, j := S(), l;
        b := AllocFor(o);
        SameBoundsOn(k, j, l);
        UntouchedOn(s, k, t, j, S(), l);
        HooksSwap(net, m, s.table, k.home, hooks, i, o, b, table, l.home);
      } else {
        Nonempty(net, S(), l, b);
        SameBoundsHere(l);
        UntouchedHere(S(), l);
      }
    }

    // All batches held at output gates go to run.
    method ProcessOGates(m: M)
      requires Inv(net, S(), l, {}) && HooksOk(net, m, table, l.home, hooks)
      modifies this
      ensures Inv(net, S(), l, {}) && Calm(net, table, l.home) && hooks == []
      ensures SameBounds(old(l), l)
    {
      hide Inv, SameBounds, Untouched, HooksOk, Calm, WellFormed, NoLoose;
      ghost var k := l;
      SameBoundsHere(k);
      HooksModule(net, m, table, l.home, hooks);
      for i := 0 to |hooks|
        invariant hooks == old(hooks)
        invariant Inv(net, S(), l, {}) && HooksOk(net, m, table, l.home, hooks[i..]) && SameBounds(k, l)
      {
        ghost var s, j := S(), l;
        HookedFirst(net, m, s, j, hooks[i..]);
        Flush(net.ogates[m][hooks[i]].value);
        HooksFlushed(net, m, s.table, j.home, hooks[i..], table, l.home);
        assert hooks[i..][1..] == hooks[i + 1..];
        SameBoundsOn(k, j, l);
      }
      HooksDone(net, m, table, l.home);
      hooks := [];
    }

    // Passes the whole batch b of the running module m to output gate i.
    method RunChooseModule(m: M, i: nat, b: nat)
      requires Inv(net, S(), l, {}) && Calm(net, table, l.home) && m in net.ogates
      requires InHand(store, idx, l, b)
      modifies this`store, this`next, this`table, this`queue, this`drops, this`l
      ensures Inv(net, S(), l, {}) && Calm(net, table, l.home)
      ensures Others(old(l), l, Members(old(store)[b])) && l.got == old(l).got
      ensures forall p :: p in old(store)[b] ==> Obeyed(net, m, l, p, Emit(i))
    {
      hide Inv, Others, Calm, SameBounds, Untouched, SameHeld, Bound, Distinct, Passed, NoLoose, WellFormed;
      ghost var s, k, ps := S(), l, store[b];
      if |store[b]| == 0 {
        OthersHere(l, Members(ps));
        return;
      }
      if i >= |net.ogates[m]| || net.ogates[m][i] == None {
        DeadendKeeps(net, s, k, b);
        drops := drops + |store[b]|;
        l := FreedAll(l, store[b]);
        store := store[b := []];
        return;
      }
      var o := net.ogates[m][i].value;
      GateFacts(net, s, k, m, i, o);
      PassKeeps(net, s, k, b, o.igate);
      l := Passed(l, store[b], b, o.igate);
      ghost var j := l;
      PassCalm(net, table, k, ps, b, o.igate);
      ghost var t := S();
      AddToRun(o.igate, b);
      CalmAgain(net, t, j, S(), l, b);
      BoundsOthers(j, l, Members(ps));
      OthersOn(k, j, l, Members(ps), Members(ps));
      assert Members(ps) + Members(ps) == Members(ps);
      BoundAgain(j, l, ps, o.igate);
    }

    // Module m handles the packets of its batch b one by one.
    method Scatter(m: M, acts: seq<Act>, b: nat)
      requires Inv(net, S(), l, {}) && Calm(net, table, l.home) && m in net.ogates && hooks == []
      requires InHand(store, idx, l, b) && AllIn(l, store[b], Hand)
      modifies this
      ensures Inv(net, S(), l, {}) && HooksOk(net, m, table, l.home, hooks)
      ensures Others(old(l), l, Members(old(store)[b])) && l.got == old(l).got && AllIn(l, [], Hand)
      ensures forall i :: 0 <= i < |old(store)[b]| ==> Obeyed(net, m, l, old(store)[b][i], ActAt(acts, i))
    {
      hide Inv, Others, Calm, Untouched, HooksOk, Obeyed, AllIn, WellFormed, NoLoose;
      ghost var s, k, ps := S(), l, store[b];
      HooksDone(net, m, table, l.home);
      UntouchedHere(s, k);
      OthersHere(k, Members(ps));
      assert ps[0..] == ps;
      for i := 0 to |store[b]|
        invariant b in store && store[b] == ps
        invariant Scattered(net, m, s, k, S(), l, ps, acts, i) && HooksOk(net, m, table, l.home, hooks)
      {
        ghost var t, j := S(), l;
        NextInHand(net, m, s, k, t, j, ps, acts, i);
        var p := store[b][i];
        match ActAt(acts, i) {
          case Emit(o) =>
            EmitPacket(m, p, o);
          case Drop =>
            DropPacket(p);
            UntouchedDrop(t, j, S(), l);
            DropObeyed(net, m, l, p);
          case Keep =>
            KeptKeeps(net, t, j, p);
            l := l.(place := l.place[p := Kept]);
            UntouchedDrop(t, j, S(), l);
            KeepObeyed(net, m, l, p);
        }
        ScatterStep(net, m, s, k, t, j, S(), l, ps, acts, i);
        StillThere(s, k, S(), l, b);
      }
      ScatterEnd(net, m, s, k, S(), l, ps, acts);
    }

    // One round of the run loop: the next batch is taken, its gate's module
    // handles it as planned, and what that module emitted is put up to run.
    method RunStep(plan: Plan, ghost g: nat, ghost ps: seq<P>)
      requires Inv(net, S(), l, {}) && Calm(net, table, l.home) && hooks == [] && AllIn(l, [], Hand)
      requires next.Some? || queue != []
      requires (g, ps) == Upcoming(S())
      modifies this
      ensures Inv(net, S(), l, {}) && Calm(net, table, l.home) && hooks == [] && AllIn(l, [], Hand)
      ensures Delivered(net, old(l), l, g, ps, plan) && Turn(net, old(l), g, ps)
    {
      hide Turn, Inv, Calm, AllIn, Others, Obeyed, SameBounds, HooksOk, WellFormed, NoLoose, Untouched, Delivered, IsHeap;
      ghost var k := l;
      ghost var s := S();
      TurnOf(net, s, k);
      var gate, b := TakeBatch();
      LogKeys(net, s, k, b);
      InHandFacts(net, S(), l, gate);
      var m := net.igates[gate].mod;
      ghost var u, j := S(), l;
      match plan {
        case Forward(i) =>
          RunChooseModule(m, i, b);
          PassedOn(net, m, u, j, l, ps, i);
          HooksDone(net, m, table, l.home);
        case Scatter(acts) =>
          Scatter(m, acts, b);
      }
      ghost var v, t := S(), l;
      ProcessOGates(m);
      HandSame(net, v, t, l);
      DeliveredBy(net, k, b, t, l, ps, plan);
    }

    // Chooses the batch to run next and hands it over.
    method TakeBatch() returns (gate: nat, b: nat)
      requires Inv(net, S(), l, {}) && Calm(net, table, l.home) && AllIn(l, [], Hand)
      requires next.Some? || queue != []
      modifies this`next, this`queue, this`table, this`l
      ensures Inv(net, S(), l, {}) && Calm(net, table, l.home)
      ensures InHand(store, idx, l, b) && AllIn(l, store[b], Hand) && store[b] != []
      ensures (gate, store[b]) == old(Upcoming(S())) && gate in net.igates
      ensures b in old(l).home && old(l).home[b].g == gate && l == Taken(old(l), b)
      ensures AllIn(old(l), store[b], In(b))
    {
      hide Inv, IsHeap, AllIn, InHand, BatchOk, Taken;
      ghost var s, k := S(), l;
      if next.Some? {
        gate, b := next.value.gate, next.value.batch;
        TakeNextKeeps(net, s, k);
        TakeInHand(net, s, k, b);
        next := None;
      } else {
        gate, b := queue[0].val.gate, queue[0].val.batch;
        HeapFact(net, s, k);
        var q := Pop(queue);
        TakeQueuedKeeps(net, s, k, q);
        TakeInHand(net, s, k, b);
        queue, table := q, table - {gate};
      }
      l := Taken(l, b);
    }

    // Nothing is pending and no packet waits to be freed.
    ghost predicate AtRest()
      reads this
    {
      next == None && queue == [] && table == map[] && dead == [] && hooks == []
    }

    constructor (n: Net<M>)
      ensures net == n && AtRest()
    {
      net := n;
      store, idx, next, table, queue := map[], 0, None, map[], [];
      dead, drops, hooks := [], 0, [];
      l := Ledger(map[], map[], map[], map[], []);
    }

    // One run of a task of module m: RunTask fills its batch with the packets
    // ps and passes it on; the modules then act as decided. On a graph without
    // cycles the run ends, with nothing pending and every packet accounted for.
    method Run(m: M, ps: seq<P>, decide: (nat, M, nat, seq<P>) -> Plan, ghost height: map<nat, nat>)
        returns (ghost trace: seq<Ledger<P>>, ghost rounds: seq<Round<P>>)
      requires AtRest() && WellFormed(net) && Descends(net, height) && m in net.ogates
      requires Distinct(ps) && |ps| <= MAX_BURST
      modifies this
      ensures AtRest() && Accounted(net, m, l, ps, drops)
      ensures History(net, decide, trace, rounds) && forall p :: p in ps ==> Obeyed(net, m, trace[0], p, Emit(0))
      ensures Others(trace[|rounds|], l, {}) && l.got == trace[|rounds|].got
    {
      hide Inv, Calm, Others, Obeyed, WellFormed, Descends, Running, AllIn, Delivered, Accounted, Distinct, Members, History;
      Start(m, ps);
      trace, rounds := RunLoop(m, ps, decide, height);
      Finish(m, ps);
    }

    // At most limit rounds of such a run, on every graph. When nothing is pending
    // after them the run has ended as above; otherwise it is under way, with every
    // packet where its log says.
    method RunAtMost(limit: nat, m: M, ps: seq<P>, decide: (nat, M, nat, seq<P>) -> Plan)
        returns (done: bool, ghost trace: seq<Ledger<P>>, ghost rounds: seq<Round<P>>)
      requires AtRest() && WellFormed(net) && m in net.ogates && Distinct(ps) && |ps| <= MAX_BURST
      modifies this
      ensures if done then AtRest() && Accounted(net, m, l, ps, drops) else |rounds| == limit && Running(net, m, S(), l, ps)
      ensures History(net, decide, trace, rounds) && |rounds| <= limit
      ensures forall p :: p in ps ==> Obeyed(net, m, trace[0], p, Emit(0))
      ensures if done then Others(trace[|rounds|], l, {}) && l.got == trace[|rounds|].got else l == trace[|rounds|]
    {
      hide Inv, Calm, Others, Obeyed, WellFormed, Running, AllIn, Delivered, Accounted, Distinct, Members, RoundAt, Turn;
      Start(m, ps);
      ghost var started := l;
      trace, rounds := [l], [];
      var step := 0;
      while (next.Some? || queue != []) && step < limit
        invariant Running(net, m, S(), l, ps) && hooks == [] && step <= limit
        invariant History(net, decide, trace, rounds) && |rounds| == step && trace[0] == started && trace[step] == l
      {
        ghost var round := OneRound(m, ps, decide, step);
        HistoryGrows(net, decide, trace, rounds, l, round);
        trace, rounds := trace + [l], rounds + [round];
        step := step + 1;
      }
      done := next == None && queue == [];
      if done {
        Finish(m, ps);
      }
    }

    // RunTask: the packets ps are passed on.
    method Start(m: M, ps: seq<P>)
      requires AtRest() && WellFormed(net) && m in net.ogates && Distinct(ps) && |ps| <= MAX_BURST
      modifies this
      ensures Running(net, m, S(), l, ps) && hooks == [] && forall p :: p in ps ==> Obeyed(net, m, l, p, Emit(0))
    {
      hide Inv, Calm, Others, Obeyed, WellFormed, Running, AllIn, InHand, Opening, Distinct, Members;
      OpeningOk(net, ps);
      store, idx, drops := map[0 := ps], 1, 0;
      l := Opening(ps);
      ghost var s, k := S(), l;
      RunChooseModule(m, 0, 0);
      PassedOn(net, m, s, k, l, ps, 0);
      FirstRoutes(net, m, S(), l, ps);
      RunsFrom(net, m, S(), l, ps);
    }

    // Nothing waits any more: the dead batch is freed.
    method Finish(m: M, ps: seq<P>)
      requires Running(net, m, S(), l, ps) && hooks == [] && next == None && queue == []
      modifies `dead, `drops, `l
      ensures AtRest() && Accounted(net, m, l, ps, drops) && Others(old(l), l, {}) && l.got == old(l).got
    {
      hide Inv, Calm, Others, WellFormed, Running, AllIn, Accounted, Members;
      RunFacts(net, m, S(), l, ps);
      NothingPending(net, S(), l);
      LastFree(net, S(), l);
      l := FreedAll(l, dead);
      drops := drops + |dead|;
      dead := [];
      RunAccounted(net, m, S(), l, ps);
    }

    // The batch that is next is handed to its module.
    method OneRound(m: M, ps: seq<P>, decide: (nat, M, nat, seq<P>) -> Plan, step: nat) returns (ghost round: Round<P>)
      requires Running(net, m, S(), l, ps) && hooks == [] && (next.Some? || queue != [])
      modifies this
      ensures Running(net, m, S(), l, ps) && hooks == []
      ensures Delivered(net, old(l), l, round.gate, round.ps, round.plan) && round.gate in net.igates
      ensures Turn(net, old(l), round.gate, round.ps)
      ensures round.plan == decide(step, net.igates[round.gate].mod, net.igates[round.gate].idx, round.ps)
    {
      hide Inv, Calm, Running, AllIn, Delivered, Turn;
      ghost var t, j := S(), l;
      RunFacts(net, m, t, j, ps);
      var r := if next.Some? then next.value else queue[0].val;
      UpcomingFacts(net, t, j);
      var plan := decide(step, net.igates[r.gate].mod, net.igates[r.gate].idx, store[r.batch]);
      round := Round(r.gate, store[r.batch], plan);
      RunStep(plan, r.gate, store[r.batch]);
      RoundRuns(net, m, t, j, S(), l, ps, r.gate, round.ps, plan);
    }

    // Runs until nothing waits any more.
    method RunLoop(m: M, ps: seq<P>, decide: (nat, M, nat, seq<P>) -> Plan, ghost height: map<nat, nat>)
        returns (ghost trace: seq<Ledger<P>>, ghost rounds: seq<Round<P>>)
      requires Running(net, m, S(), l, ps) && hooks == [] && Descends(net, height)
      modifies this
      ensures Running(net, m, S(), l, ps) && hooks == [] && next == None && queue == []
      ensures History(net, decide, trace, rounds) && trace[0] == old(l) && trace[|rounds|] == l
    {
      hide Inv, Calm, Descends, Running, AllIn, Delivered, Total, RoundAt, Turn;
      trace, rounds := [l], [];
      var step := 0;
      while next.Some? || queue != []
        invariant Running(net, m, S(), l, ps) && hooks == []
        invariant History(net, decide, trace, rounds) && |rounds| == step && trace[0] == old(l) && trace[step] == l
        decreases Total(l, height, ps)
      {
        ghost var t, j := S(), l;
        ghost var round := OneRound(m, ps, decide, step);
        RoundSinks(net, m, t, j, l, ps, round.gate, round.ps, round.plan, height);
        HistoryGrows(net, decide, trace, rounds, l, round);
        trace, rounds := trace + [l], rounds + [round];
        step := step + 1;
      }
    }
  }
}
