/** The doubly linked gates of the module graph. Gates are heap objects with
    addresses that are allocated and deleted explicitly, so every pointer that is
    followed here is shown to be live. */
module GateLinks {
  import opened ExtendedPriorityQueue

  const MAX_GATES: nat := 8192
  const EINVAL: int := -22
  const EBUSY: int := -16

  datatype Ptr = Null | To(addr: nat)

  datatype Module = Module(igates: seq<Ptr>, ogates: seq<Ptr>, numIGates: nat, numOGates: nat)

  datatype IGate = IGate(mod: string, idx: nat, upstream: seq<nat>, mergeable: bool, priority: nat, unique: nat)

  datatype OGate = OGate(mod: string, idx: nat, next: string, igate: nat, igateIdx: nat, unique: nat)

  // All modules by name, and the live gates by address.
  datatype Graph = Graph(mods: map<string, Module>, ig: map<nat, IGate>, og: map<nat, OGate>, brk: nat)

  // ---- consistency ----

  ghost predicate Points(slots: seq<Ptr>, i: nat, addr: nat) {
    i < |slots| && slots[i] == To(addr)
  }

  // A live output gate sits in its slot, and its input gate is live and knows it.
  ghost predicate OGateOk(g: Graph, a: nat)
    requires a in g.og
  {
    var o := g.og[a];
    && a < g.brk && o.mod in g.mods && Points(g.mods[o.mod].ogates, o.idx, a)
    && o.igate in g.ig && g.ig[o.igate].mod == o.next && g.ig[o.igate].idx == o.igateIdx
    && a in g.ig[o.igate].upstream
  }

  // A live input gate sits in its slot and lists, once each, live output gates
  // that lead to it.
  ghost predicate IGateOk(g: Graph, b: nat)
    requires b in g.ig
  {
    var i := g.ig[b];
    && b < g.brk && i.mod in g.mods && Points(g.mods[i.mod].igates, i.idx, b)
    && Distinct(i.upstream) && (|i.upstream| > 1 ==> i.mergeable)
    && forall a :: a in i.upstream ==> a in g.og && g.og[a].igate == b
  }

  ghost predicate Distinct(s: seq<nat>) {
    forall i, j :: 0 <= i < j < |s| ==> s[i] != s[j]
  }

  // Every slot of a module is empty or holds a live gate of that slot.
  ghost predicate SlotsOk(g: Graph, m: string)
    requires m in g.mods
  {
    var x := g.mods[m];
    && |x.igates| <= x.numIGates && |x.ogates| <= x.numOGates
    && (forall i :: 0 <= i < |x.ogates| && x.ogates[i] != Null ==>
          x.ogates[i].addr in g.og && g.og[x.ogates[i].addr].mod == m && g.og[x.ogates[i].addr].idx == i)
    && (forall i :: 0 <= i < |x.igates| && x.igates[i] != Null ==>
          x.igates[i].addr in g.ig && g.ig[x.igates[i].addr].mod == m && g.ig[x.igates[i].addr].idx == i)
  }

  // Consistent, except that the input gates in e may have nothing upstream.
  ghost predicate ConsistentBut(g: Graph, e: set<nat>) {
    && (forall a :: a in g.og ==> OGateOk(g, a))
    && (forall b :: b in g.ig ==> IGateOk(g, b) && (b in e || g.ig[b].upstream != []))
    && (forall m :: m in g.mods ==> SlotsOk(g, m))
  }

  ghost predicate Consistent(g: Graph) {
    ConsistentBut(g, {})
  }

  // ---- what the graph means ----

  datatype Link = Link(mod: string, ogate: nat, next: string, igate: nat)

  ghost function LinkOf(o: OGate): Link {
    Link(o.mod, o.idx, o.next, o.igateIdx)
  }

  ghost function Links(g: Graph): set<Link> {
    set a | a in g.og :: LinkOf(g.og[a])
  }

  // Two live output gates never share a slot.
  lemma SlotUnique(g: Graph, e: set<nat>, a: nat, b: nat)
    requires ConsistentBut(g, e) && a in g.og && b in g.og && g.og[a].mod == g.og[b].mod && g.og[a].idx == g.og[b].idx
    ensures a == b
  {
    assert OGateOk(g, a) && OGateOk(g, b);
  }

  // ---- steps on the graph ----

  function WithOSlot(mods: map<string, Module>, m: string, i: nat, p: Ptr): map<string, Module>
    requires m in mods && i < |mods[m].ogates|
  {
    mods[m := mods[m].(ogates := mods[m].ogates[i := p])]
  }

  function WithISlot(mods: map<string, Module>, m: string, i: nat, p: Ptr): map<string, Module>
    requires m in mods && i < |mods[m].igates|
  {
    mods[m := mods[m].(igates := mods[m].igates[i := p])]
  }

  // vector::resize with null pointers, where it grows.
  function Resized(s: seq<Ptr>, n: nat): (r: seq<Ptr>)
    ensures |r| == (if n <= |s| then |s| else n) && s == r[..|s|]
    ensures forall i :: |s| <= i < |r| ==> r[i] == Null
  {
    if n <= |s| then s else s + seq(n - |s|, _ => Null)
  }

  lemma ResizeOKeeps(g: Graph, m: string, n: nat)
    requires Consistent(g) && m in g.mods && n <= g.mods[m].numOGates
    ensures var t := g.(mods := g.mods[m := g.mods[m].(ogates := Resized(g.mods[m].ogates, n))]);
            Consistent(t) && Links(t) == Links(g)
  {
    var t := g.(mods := g.mods[m := g.mods[m].(ogates := Resized(g.mods[m].ogates, n))]);
    forall a | a in t.og ensures OGateOk(t, a) { assert OGateOk(g, a); }
    forall b | b in t.ig ensures IGateOk(t, b) && t.ig[b].upstream != [] { assert IGateOk(g, b); }
    forall x | x in t.mods ensures SlotsOk(t, x) { assert SlotsOk(g, x); }
  }

  lemma ResizeIKeeps(g: Graph, m: string, n: nat)
    requires Consistent(g) && m in g.mods && n <= g.mods[m].numIGates
    ensures var t := g.(mods := g.mods[m := g.mods[m].(igates := Resized(g.mods[m].igates, n))]);
            Consistent(t) && Links(t) == Links(g)
  {
    var t := g.(mods := g.mods[m := g.mods[m].(igates := Resized(g.mods[m].igates, n))]);
    forall a | a in t.og ensures OGateOk(t, a) { assert OGateOk(g, a); }
    forall b | b in t.ig ensures IGateOk(t, b) && t.ig[b].upstream != [] { assert IGateOk(g, b); }
    forall x | x in t.mods ensures SlotsOk(t, x) { assert SlotsOk(g, x); }
  }

  lemma BrkFresh(g: Graph, e: set<nat>)
    requires ConsistentBut(g, e)
    ensures g.brk !in g.og && g.brk !in g.ig
  {
    forall a | a in g.og ensures a != g.brk { assert OGateOk(g, a); }
    forall b | b in g.ig ensures b != g.brk { assert IGateOk(g, b); }
  }

  ghost function NewIGate(g: Graph, m: string, i: nat): Graph
    requires m in g.mods && i < |g.mods[m].igates|
  {
    Graph(WithISlot(g.mods, m, i, To(g.brk)), g.ig[g.brk := IGate(m, i, [], false, 0, 0)], g.og, g.brk + 1)
  }

  lemma NewIGateKeeps(g: Graph, m: string, i: nat)
    requires Consistent(g) && m in g.mods && i < |g.mods[m].igates| && g.mods[m].igates[i] == Null
    ensures ConsistentBut(NewIGate(g, m, i), {g.brk}) && Links(NewIGate(g, m, i)) == Links(g)
  {
    var t := NewIGate(g, m, i);
    forall a | a in t.og ensures OGateOk(t, a) { assert OGateOk(g, a); }
    forall b | b in t.ig ensures IGateOk(t, b) && (b == g.brk || t.ig[b].upstream != []) {
      if b != g.brk { assert IGateOk(g, b); }
    }
    BrkFresh(g, {});
    forall x | x in t.mods ensures SlotsOk(t, x) { assert SlotsOk(g, x); }
  }

  // A new output gate in slot i of m, connected to input gate b.
  ghost function Attached(g: Graph, m: string, i: nat, b: nat): Graph
    requires m in g.mods && i < |g.mods[m].ogates| && b in g.ig
  {
    var up := g.ig[b].upstream + [g.brk];
    Graph(WithOSlot(g.mods, m, i, To(g.brk)), g.ig[b := g.ig[b].(upstream := up, mergeable := |up| > 1)],
          g.og[g.brk := OGate(m, i, g.ig[b].mod, b, g.ig[b].idx, 0)], g.brk + 1)
  }

  lemma AttachO(g: Graph, m: string, i: nat, b: nat, a: nat)
    requires b in g.ig && m in g.mods && i < |g.mods[m].ogates| && g.mods[m].ogates[i] == Null && g.brk !in g.og
    requires a in g.og ==> OGateOk(g, a)
    requires a in g.og || a == g.brk
    ensures OGateOk(Attached(g, m, i, b), a)
  {
    var t := Attached(g, m, i, b);
    assert t.ig[b].upstream[|g.ig[b].upstream|] == g.brk;
  }

  lemma AttachI(g: Graph, m: string, i: nat, b: nat, c: nat)
    requires b in g.ig && m in g.mods && i < |g.mods[m].ogates| && g.brk !in g.og && c in g.ig && IGateOk(g, c)
    ensures IGateOk(Attached(g, m, i, b), c)
  {
    assert forall a :: a in g.ig[c].upstream ==> a in g.og;
    hide Points;
  }

  lemma AttachSlots(g: Graph, m: string, i: nat, b: nat, x: string)
    requires b in g.ig && m in g.mods && i < |g.mods[m].ogates| && g.brk !in g.og && x in g.mods && SlotsOk(g, x)
    ensures SlotsOk(Attached(g, m, i, b), x)
  {
  }

  lemma AttachLinks(g: Graph, m: string, i: nat, b: nat)
    requires b in g.ig && m in g.mods && i < |g.mods[m].ogates| && g.brk !in g.og
    ensures Links(Attached(g, m, i, b)) == Links(g) + {Link(m, i, g.ig[b].mod, g.ig[b].idx)}
  {
    var t := Attached(g, m, i, b);
    forall l | l in Links(g) ensures l in Links(t) {
      var a :| a in g.og && l == LinkOf(g.og[a]);
      assert t.og[a] == g.og[a];
    }
    assert LinkOf(t.og[g.brk]) in Links(t);
  }

  lemma AttachKeeps(g: Graph, m: string, i: nat, b: nat)
    requires ConsistentBut(g, {b}) && b in g.ig && m in g.mods && i < |g.mods[m].ogates| && g.mods[m].ogates[i] == Null
    ensures var t := Attached(g, m, i, b);
            Consistent(t) && Links(t) == Links(g) + {Link(m, i, g.ig[b].mod, g.ig[b].idx)}
  {
    hide OGateOk, IGateOk, SlotsOk, Links;
    var t := Attached(g, m, i, b);
    BrkFresh(g, {b});
    forall a | a in t.og ensures OGateOk(t, a) { AttachO(g, m, i, b, a); }
    forall c | c in t.ig ensures IGateOk(t, c) && t.ig[c].upstream != [] { AttachI(g, m, i, b, c); }
    forall x | x in t.mods ensures SlotsOk(t, x) { AttachSlots(g, m, i, b, x); }
    AttachLinks(g, m, i, b);
  }

  // Output gate a, the k-th upstream of its input gate, is unlinked and deleted.
  ghost function Detached(g: Graph, a: nat, k: nat): Graph
    requires a in g.og && OGateOk(g, a) && k < |g.ig[g.og[a].igate].upstream|
  {
    var o := g.og[a];
    var up := g.ig[o.igate].upstream;
    g.(mods := WithOSlot(g.mods, o.mod, o.idx, Null), og := g.og - {a},
       ig := g.ig[o.igate := g.ig[o.igate].(upstream := up[..k] + up[k + 1..])])
  }

  lemma ErasedMembers(s: seq<nat>, k: nat)
    requires Distinct(s) && k < |s|
    ensures Distinct(s[..k] + s[k + 1..]) && forall x :: x in s[..k] + s[k + 1..] <==> x in s && x != s[k]
  {
    var r := s[..k] + s[k + 1..];
    forall x | x in s && x != s[k] ensures x in r {
      var i :| 0 <= i < |s| && s[i] == x;
      assert r[if i < k then i else i - 1] == x;
    }
  }

  lemma DetachO(g: Graph, a: nat, k: nat, c: nat)
    requires a in g.og && OGateOk(g, a) && IGateOk(g, g.og[a].igate) && k < |g.ig[g.og[a].igate].upstream|
    requires g.ig[g.og[a].igate].upstream[k] == a && c in g.og && c != a && OGateOk(g, c)
    ensures OGateOk(Detached(g, a, k), c)
  {
    ErasedMembers(g.ig[g.og[a].igate].upstream, k);
    hide Distinct;
  }

  lemma DetachI(g: Graph, a: nat, k: nat, c: nat)
    requires a in g.og && OGateOk(g, a) && IGateOk(g, g.og[a].igate) && k < |g.ig[g.og[a].igate].upstream|
    requires g.ig[g.og[a].igate].upstream[k] == a && c in g.ig && IGateOk(g, c)
    ensures IGateOk(Detached(g, a, k), c)
  {
    ErasedMembers(g.ig[g.og[a].igate].upstream, k);
    hide Distinct;
    var t := Detached(g, a, k);
    forall x | x in t.ig[c].upstream ensures x in t.og && t.og[x].igate == c {
      assert x in g.ig[c].upstream;
    }
  }

  lemma DetachSlots(g: Graph, a: nat, k: nat, x: string)
    requires a in g.og && OGateOk(g, a) && k < |g.ig[g.og[a].igate].upstream| && x in g.mods && SlotsOk(g, x)
    ensures SlotsOk(Detached(g, a, k), x)
  {
  }

  lemma DetachLinks(g: Graph, e: set<nat>, a: nat, k: nat)
    requires ConsistentBut(g, e) && a in g.og && OGateOk(g, a) && k < |g.ig[g.og[a].igate].upstream|
    ensures Links(Detached(g, a, k)) == Links(g) - {LinkOf(g.og[a])}
  {
    var t := Detached(g, a, k);
    forall l | l in Links(g) && l != LinkOf(g.og[a]) ensures l in Links(t) {
      var c :| c in g.og && l == LinkOf(g.og[c]);
      assert c in t.og;
    }
    forall l | l in Links(t) ensures l in Links(g) && l != LinkOf(g.og[a]) {
      var c :| c in t.og && l == LinkOf(t.og[c]);
      if l == LinkOf(g.og[a]) { SlotUnique(g, e, a, c); }
    }
  }

  lemma DetachKeeps(g: Graph, e: set<nat>, a: nat, k: nat)
    requires ConsistentBut(g, e) && a in g.og && OGateOk(g, a)
    requires k < |g.ig[g.og[a].igate].upstream| && g.ig[g.og[a].igate].upstream[k] == a
    ensures ConsistentBut(Detached(g, a, k), e + {g.og[a].igate})
    ensures Links(Detached(g, a, k)) == Links(g) - {LinkOf(g.og[a])}
  {
    var t := Detached(g, a, k);
    var b := g.og[a].igate;
    assert b in g.ig;
    hide OGateOk, IGateOk, SlotsOk, Links;
    forall c | c in t.og ensures OGateOk(t, c) { DetachO(g, a, k, c); }
    forall c | c in t.ig ensures IGateOk(t, c) { DetachI(g, a, k, c); }
    forall x | x in t.mods ensures SlotsOk(t, x) { DetachSlots(g, a, k, x); }
    DetachLinks(g, e, a, k);
  }

  // Input gate b is deleted.
  ghost function Dropped(g: Graph, b: nat): Graph
    requires b in g.ig && IGateOk(g, b)
  {
    g.(mods := WithISlot(g.mods, g.ig[b].mod, g.ig[b].idx, Null), ig := g.ig - {b})
  }

  lemma DropO(g: Graph, b: nat, a: nat)
    requires b in g.ig && g.ig[b].upstream == [] && IGateOk(g, b) && a in g.og && OGateOk(g, a)
    ensures OGateOk(Dropped(g, b), a)
  {
  }

  lemma DropI(g: Graph, b: nat, c: nat)
    requires b in g.ig && IGateOk(g, b) && c in g.ig && IGateOk(g, c) && c != b
    ensures IGateOk(Dropped(g, b), c)
  {
    hide Distinct;
  }

  lemma DropSlots(g: Graph, b: nat, x: string)
    requires b in g.ig && IGateOk(g, b) && x in g.mods && SlotsOk(g, x)
    ensures SlotsOk(Dropped(g, b), x)
  {
  }

  lemma DropKeeps(g: Graph, b: nat)
    requires ConsistentBut(g, {b}) && b in g.ig && g.ig[b].upstream == [] && IGateOk(g, b)
    ensures Consistent(Dropped(g, b)) && Links(Dropped(g, b)) == Links(g)
  {
    var t := Dropped(g, b);
    hide OGateOk, IGateOk, SlotsOk;
    forall a | a in t.og ensures OGateOk(t, a) { DropO(g, b, a); }
    forall c | c in t.ig ensures IGateOk(t, c) && t.ig[c].upstream != [] { DropI(g, b, c); }
    forall x | x in t.mods ensures SlotsOk(t, x) { DropSlots(g, b, x); }
  }

  // ---- reading the graph ----

  // A slot is in use exactly when a link starts there.
  lemma SlotLink(g: Graph, m: string, i: nat)
    requires Consistent(g) && m in g.mods
    ensures (i < |g.mods[m].ogates| && g.mods[m].ogates[i] != Null)
              <==> exists l :: l in Links(g) && l.mod == m && l.ogate == i
  {
    assert SlotsOk(g, m);
    if i < |g.mods[m].ogates| && g.mods[m].ogates[i] != Null {
      assert LinkOf(g.og[g.mods[m].ogates[i].addr]) in Links(g);
    }
    forall l | l in Links(g) && l.mod == m && l.ogate == i ensures i < |g.mods[m].ogates| && g.mods[m].ogates[i] != Null {
      var a :| a in g.og && LinkOf(g.og[a]) == l;
      assert OGateOk(g, a);
    }
  }

  ghost predicate SameSizes(a: map<string, Module>, b: map<string, Module>) {
    a.Keys == b.Keys && forall m :: m in a ==> |a[m].igates| == |b[m].igates| && |a[m].ogates| == |b[m].ogates|
  }

  lemma ISlotShape(mods: map<string, Module>, m: string, i: nat, p: Ptr)
    requires m in mods && i < |mods[m].igates|
    ensures var t := WithISlot(mods, m, i, p); SameModules(mods, t) && SameOGates(mods, t)
  {
  }

  lemma OSlotShape(mods: map<string, Module>, m: string, i: nat, p: Ptr)
    requires m in mods && i < |mods[m].ogates|
    ensures var t := WithOSlot(mods, m, i, p); SameModules(mods, t) && SameIGates(mods, t)
  {
  }

  ghost predicate SameOGates(a: map<string, Module>, b: map<string, Module>) {
    a.Keys == b.Keys && forall m :: m in a ==> a[m].ogates == b[m].ogates
  }

  ghost predicate SameIGates(a: map<string, Module>, b: map<string, Module>) {
    a.Keys == b.Keys && forall m :: m in a ==> a[m].igates == b[m].igates
  }

  lemma SameHere(mods: map<string, Module>)
    ensures SameModules(mods, mods) && SameOGates(mods, mods) && SameIGates(mods, mods) && SameSizes(mods, mods)
  {
  }

  lemma ISlotLive(g: Graph, m: string, i: nat)
    requires Consistent(g) && m in g.mods && i < |g.mods[m].igates|
    ensures g.mods[m].igates[i] != Null ==>
              var b := g.mods[m].igates[i].addr;
              b in g.ig && g.ig[b].mod == m && g.ig[b].idx == i && ConsistentBut(g, {b})
  {
    assert SlotsOk(g, m);
    hide SlotsOk, IGateOk, OGateOk;
  }

  ghost predicate SameModules(a: map<string, Module>, b: map<string, Module>) {
    a.Keys == b.Keys && forall m :: m in a ==> a[m].numIGates == b[m].numIGates && a[m].numOGates == b[m].numOGates
  }

  lemma SlotsCommute(mods: map<string, Module>, m: string, i: nat, n: string, j: nat)
    requires m in mods && n in mods && i < |mods[m].ogates| && j < |mods[n].igates|
    ensures i < |WithISlot(mods, n, j, Null)[m].ogates| && j < |WithOSlot(mods, m, i, Null)[n].igates|
    ensures WithISlot(WithOSlot(mods, m, i, Null), n, j, Null) == WithOSlot(WithISlot(mods, n, j, Null), m, i, Null)
  {
  }

  // What holds of the gate in an occupied slot.
  lemma OSlotLive(g: Graph, m: string, i: nat)
    requires Consistent(g) && m in g.mods && i < |g.mods[m].ogates| && g.mods[m].ogates[i] != Null
    ensures var a := g.mods[m].ogates[i].addr;
      a in g.og && g.og[a].mod == m && g.og[a].idx == i && OGateOk(g, a) && IGateOk(g, g.og[a].igate)
  {
    assert SlotsOk(g, m);
    assert OGateOk(g, g.mods[m].ogates[i].addr);
  }

  // The links that start in slot i of m: there is at most one.
  lemma LinksFrom(g: Graph, a: nat)
    requires Consistent(g) && a in g.og
    ensures forall l :: l in Links(g) && l.mod == g.og[a].mod && l.ogate == g.og[a].idx ==> l == LinkOf(g.og[a])
  {
    forall l | l in Links(g) && l.mod == g.og[a].mod && l.ogate == g.og[a].idx ensures l == LinkOf(g.og[a]) {
      var c :| c in g.og && LinkOf(g.og[c]) == l;
      SlotUnique(g, {}, a, c);
    }
  }

  ghost function LinksBut(g: Graph, m: string, i: nat): set<Link> {
    set l | l in Links(g) && !(l.mod == m && l.ogate == i)
  }

  // Output gate a goes, and its input gate with it when a was the last.
  ghost function Cut(g: Graph, a: nat, k: nat): Graph
    requires a in g.og && OGateOk(g, a) && IGateOk(g, g.og[a].igate) && k < |g.ig[g.og[a].igate].upstream|
  {
    var t := Detached(g, a, k);
    var b := g.og[a].igate;
    if t.ig[b].upstream == [] then
      t.(mods := WithISlot(t.mods, t.ig[b].mod, t.ig[b].idx, Null), ig := t.ig - {b})
    else t
  }

  lemma CutKeeps(g: Graph, a: nat, k: nat)
    requires Consistent(g) && a in g.og && OGateOk(g, a) && IGateOk(g, g.og[a].igate)
    requires k < |g.ig[g.og[a].igate].upstream| && g.ig[g.og[a].igate].upstream[k] == a
    ensures Consistent(Cut(g, a, k)) && Links(Cut(g, a, k)) == LinksBut(g, g.og[a].mod, g.og[a].idx)
  {
    DetachKeeps(g, {}, a, k);
    LinksFrom(g, a);
    var t := Detached(g, a, k);
    var b := g.og[a].igate;
    assert {} + {b} == {b};
    hide OGateOk, SlotsOk, Links;
    assert b in t.ig;
    assert IGateOk(t, b);
    if t.ig[b].upstream == [] { DropKeeps(t, b); }
    assert LinkOf(g.og[a]) in Links(g) by { LinkLive(g, a); }
  }

  lemma LinkLive(g: Graph, a: nat)
    requires a in g.og
    ensures LinkOf(g.og[a]) in Links(g)
  {
  }

  // The graph while the output gates before input gate b are deleted one by one:
  // as if b listed only the rest.
  ghost function Shadow(g: Graph, b: nat, rest: seq<nat>): Graph
    requires b in g.ig
  {
    g.(ig := g.ig[b := g.ig[b].(upstream := rest)])
  }

  ghost function LinksNotTo(g: Graph, m: string, i: nat): set<Link> {
    set l | l in Links(g) && !(l.next == m && l.igate == i)
  }

  lemma ShadowFirst(h: Graph, b: nat)
    requires ConsistentBut(h, {b}) && b in h.ig && h.ig[b].upstream != []
    ensures var a := h.ig[b].upstream[0]; a in h.og && OGateOk(h, a) && h.og[a].igate == b
  {
    assert IGateOk(h, b);
    assert h.ig[b].upstream[0] in h.ig[b].upstream;
  }

  // One of them goes.
  lemma ShadowStep(g: Graph, b: nat, rest: seq<nat>)
    requires b in g.ig && rest != [] && ConsistentBut(Shadow(g, b, rest), {b})
    ensures rest[0] in g.og && g.og[rest[0]].mod in g.mods && g.og[rest[0]].idx < |g.mods[g.og[rest[0]].mod].ogates|
    ensures var o := g.og[rest[0]];
      var t := g.(mods := WithOSlot(g.mods, o.mod, o.idx, Null), og := g.og - {rest[0]});
      && ConsistentBut(Shadow(t, b, rest[1..]), {b})
      && Links(t) == Links(g) - {LinkOf(o)} && o.next == g.ig[b].mod && o.igateIdx == g.ig[b].idx
  {
    hide ConsistentBut, IGateOk, Links;
    var h := Shadow(g, b, rest);
    ShadowFirst(h, b);
    DetachKeeps(h, {b}, rest[0], 0);
    hide OGateOk;
    var o := g.og[rest[0]];
    var t := g.(mods := WithOSlot(g.mods, o.mod, o.idx, Null), og := g.og - {rest[0]});
    assert {b} + {b} == {b};
    assert rest[..0] + rest[0 + 1..] == rest[1..];
    assert h.ig[b := h.ig[b].(upstream := rest[1..])] == t.ig[b := t.ig[b].(upstream := rest[1..])];
    assert Detached(h, rest[0], 0) == Shadow(t, b, rest[1..]);
    SameLinks(Shadow(t, b, rest[1..]), t);
    SameLinks(h, g);
  }

  lemma ShadowDone(g: Graph, b: nat)
    requires b in g.ig && ConsistentBut(Shadow(g, b, []), {b})
    ensures g.ig[b].mod in g.mods && g.ig[b].idx < |g.mods[g.ig[b].mod].igates|
    ensures var t := g.(mods := WithISlot(g.mods, g.ig[b].mod, g.ig[b].idx, Null), ig := g.ig - {b});
            Consistent(t) && Links(t) == Links(g) && LinksNotTo(t, g.ig[b].mod, g.ig[b].idx) == Links(t)
  {
    hide OGateOk, SlotsOk, Links;
    var h := Shadow(g, b, []);
    assert IGateOk(h, b);
    DropKeeps(h, b);
    var t := g.(mods := WithISlot(g.mods, g.ig[b].mod, g.ig[b].idx, Null), ig := g.ig - {b});
    assert Dropped(h, b) == t;
    SameLinks(h, g);
    NoneTo(t, g.ig[b].mod, g.ig[b].idx);
  }

  lemma SameLinks(g: Graph, h: Graph)
    requires g.og == h.og
    ensures Links(g) == Links(h)
  {
  }

  // Progress of deleting the output gates before input gate b: rest are left.
  ghost predicate Deleting(g: Graph, h: Graph, b: nat, rest: seq<nat>) {
    && b in g.ig && h.ig == g.ig && SameModules(g.mods, h.mods) && SameSizes(g.mods, h.mods)
    && ConsistentBut(Shadow(h, b, rest), {b})
    && LinksNotTo(g, g.ig[b].mod, g.ig[b].idx) <= Links(h) <= Links(g)
  }

  lemma DeleteStep(g: Graph, h: Graph, b: nat, rest: seq<nat>)
    requires rest != [] && Deleting(g, h, b, rest)
    ensures rest[0] in h.og && h.og[rest[0]].mod in h.mods && h.og[rest[0]].idx < |h.mods[h.og[rest[0]].mod].ogates|
    ensures var o := h.og[rest[0]];
            Deleting(g, h.(mods := WithOSlot(h.mods, o.mod, o.idx, Null), og := h.og - {rest[0]}), b, rest[1..])
  {
    hide ConsistentBut, Links;
    ShadowStep(h, b, rest);
    OSlotShape(h.mods, h.og[rest[0]].mod, h.og[rest[0]].idx, Null);
  }

  lemma DeleteDone(g: Graph, h: Graph, b: nat)
    requires Deleting(g, h, b, [])
    ensures b in h.ig && h.ig[b].mod in h.mods && h.ig[b].idx < |h.mods[h.ig[b].mod].igates|
    ensures var t := h.(mods := WithISlot(h.mods, h.ig[b].mod, h.ig[b].idx, Null), ig := h.ig - {b});
      && Consistent(t) && SameModules(g.mods, t.mods) && SameSizes(g.mods, t.mods)
      && Links(t) == LinksNotTo(g, g.ig[b].mod, g.ig[b].idx)
  {
    hide ConsistentBut, Links;
    ShadowDone(h, b);
    ISlotShape(h.mods, h.ig[b].mod, h.ig[b].idx, Null);
  }

  lemma DeleteStart(g: Graph, b: nat)
    requires b in g.ig && ConsistentBut(g, {b})
    ensures Deleting(g, g, b, g.ig[b].upstream)
  {
    assert g.ig[b := g.ig[b].(upstream := g.ig[b].upstream)] == g.ig;
    hide ConsistentBut, Links;
    assert Shadow(g, b, g.ig[b].upstream) == g;
  }

  // No link leads to an empty slot.
  lemma NoneTo(g: Graph, m: string, i: nat)
    requires Consistent(g) && (m !in g.mods || i >= |g.mods[m].igates| || g.mods[m].igates[i] == Null)
    ensures LinksNotTo(g, m, i) == Links(g)
  {
    forall l | l in Links(g) ensures !(l.next == m && l.igate == i) {
      var a :| a in g.og && LinkOf(g.og[a]) == l;
      assert OGateOk(g, a);
      assert IGateOk(g, g.og[a].igate);
    }
  }

  ghost function LinksPastI(g: Graph, m: string, n: nat): set<Link> {
    set l | l in Links(g) && !(l.next == m && l.igate < n)
  }

  ghost function LinksPastO(g: Graph, m: string, n: nat): set<Link> {
    set l | l in Links(g) && !(l.mod == m && l.ogate < n)
  }

  ghost function LinksWithout(g: Graph, m: string): set<Link> {
    set l | l in Links(g) && l.mod != m && l.next != m
  }

  // Links start and end in slots.
  lemma LinkSlots(g: Graph, l: Link)
    requires Consistent(g) && l in Links(g)
    ensures l.mod in g.mods && l.ogate < |g.mods[l.mod].ogates| && l.next in g.mods && l.igate < |g.mods[l.next].igates|
  {
    var a :| a in g.og && LinkOf(g.og[a]) == l;
    assert OGateOk(g, a);
    assert IGateOk(g, g.og[a].igate);
  }

  lemma PastNone(g: Graph, m: string)
    requires Consistent(g)
    ensures LinksPastI(g, m, 0) == Links(g) && LinksPastO(g, m, 0) == Links(g)
  {
  }

  // Having gone past all its slots, no link touches m.
  lemma PastAll(g: Graph, h: Graph, k: Graph, m: string)
    requires Consistent(g) && Consistent(h) && m in g.mods && m in h.mods
    requires Links(h) == LinksPastI(g, m, |g.mods[m].igates|) && Links(k) == LinksPastO(h, m, |h.mods[m].ogates|)
    ensures Links(k) == LinksWithout(g, m)
  {
    forall l | l in Links(g) ensures l in Links(k) <==> l.mod != m && l.next != m {
      LinkSlots(g, l);
      if l in Links(h) { LinkSlots(h, l); }
    }
  }

  // A module no link touches can go.
  lemma EraseKeeps(g: Graph, m: string)
    requires Consistent(g) && Links(g) == LinksWithout(g, m)
    ensures var t := g.(mods := g.mods - {m});
      && Consistent(t) && Links(t) == Links(g)
      && (forall a :: a in t.og ==> t.og[a].mod != m && t.og[a].next != m) && forall b :: b in t.ig ==> t.ig[b].mod != m
  {
    var t := g.(mods := g.mods - {m});
    NoGateOf(g, m);
    SameLinks(g, t);
    hide Links, LinksWithout;
    forall a | a in t.og ensures OGateOk(t, a) { assert OGateOk(g, a); }
    forall b | b in t.ig ensures IGateOk(t, b) { assert IGateOk(g, b); }
    forall x | x in t.mods ensures SlotsOk(t, x) { assert SlotsOk(g, x); }
  }

  lemma NoGateOf(g: Graph, m: string)
    requires Consistent(g) && Links(g) == LinksWithout(g, m)
    ensures (forall a :: a in g.og ==> g.og[a].mod != m && g.og[a].next != m) && forall b :: b in g.ig ==> g.ig[b].mod != m
  {
    forall a | a in g.og ensures g.og[a].mod != m && g.og[a].next != m {
      LinkLive(g, a);
    }
    forall b | b in g.ig ensures g.ig[b].mod != m {
      assert IGateOk(g, b);
      assert g.ig[b].upstream[0] in g.ig[b].upstream;
      assert OGateOk(g, g.ig[b].upstream[0]);
    }
  }

  lemma PastI(g: Graph, h: Graph, m: string, i: nat)
    requires Links(h) == LinksPastI(g, m, i)
    ensures LinksNotTo(h, m, i) == LinksPastI(g, m, i + 1)
  {
    hide Links;
  }

  lemma PastO(g: Graph, h: Graph, m: string, i: nat)
    requires Links(h) == LinksPastO(g, m, i)
    ensures LinksBut(h, m, i) == LinksPastO(g, m, i + 1)
  {
    hide Links;
  }

  lemma WithoutTwice(g: Graph, h: Graph, m: string)
    requires Links(h) == LinksWithout(g, m)
    ensures Links(h) == LinksWithout(h, m)
  {
    hide Links;
  }

  lemma CreateKeeps(g: Graph, m: string, ni: nat, no: nat)
    requires Consistent(g) && m !in g.mods
    ensures var t := g.(mods := g.mods[m := Module([], [], ni, no)]); Consistent(t) && Links(t) == Links(g)
  {
    var t := g.(mods := g.mods[m := Module([], [], ni, no)]);
    forall a | a in t.og ensures OGateOk(t, a) { assert OGateOk(g, a); }
    forall b | b in t.ig ensures IGateOk(t, b) { assert IGateOk(g, b); }
    forall x | x in t.mods ensures SlotsOk(t, x) { if x != m { assert SlotsOk(g, x); } }
    SameLinks(g, t);
  }

  lemma NoSlots(g: Graph, m: string)
    requires Consistent(g) && m in g.mods
    ensures |g.mods[m].igates| <= g.mods[m].numIGates && |g.mods[m].ogates| <= g.mods[m].numOGates
  {
    assert SlotsOk(g, m);
  }

  // ---- unique indices ----

  ghost function Left(all: set<nat>, list: seq<nat>): set<nat> {
    set a | a in all && a !in list
  }

  // The addresses in list are out of the queue, in key order; the others of all
  // are still in it.
  ghost predicate Drained(q: seq<Entry<nat>>, list: seq<nat>, all: set<nat>, key: map<nat, int>) {
    && Distinct(list) && (forall a :: a in list ==> a in all)
    && Holds(q, Left(all, list), key) && all <= key.Keys
    && (forall i, j :: 0 <= i < j < |list| ==> key[list[i]] <= key[list[j]])
    && forall i, a :: 0 <= i < |list| && a in all && a !in list ==> key[list[i]] <= key[a]
  }

  lemma DrainStep(q: seq<Entry<nat>>, r: seq<Entry<nat>>, list: seq<nat>, all: set<nat>, key: map<nat, int>)
    requires Drained(q, list, all, key) && q != [] && IsHeap(q) && multiset(r) == multiset(q) - multiset{q[0]}
    ensures q[0].val in all && q[0].val !in list && Drained(r, list + [q[0].val], all, key)
  {
    HoldsPop(q, r, Left(all, list), key);
    assert Left(all, list + [q[0].val]) == Left(all, list) - {q[0].val};
    hide Holds;
  }

  lemma DrainDone(list: seq<nat>, all: set<nat>, key: map<nat, int>)
    requires Drained([], list, all, key)
    ensures Listing(list, all) && forall i, j :: 0 <= i < j < |list| ==> key[list[i]] <= key[list[j]]
  {
    var none: seq<Entry<nat>> := [];
    forall a | a in all ensures a in list {
      var e := Entry(key[a], a);
      assert a in Left(all, list) ==> e in none;
    }
  }

  // The list enumerates the set, each element once.
  ghost predicate Listing(list: seq<nat>, s: set<nat>) {
    Distinct(list) && forall a :: a in s <==> a in list
  }

  ghost predicate Lists(order: seq<string>, g: Graph) {
    && (forall m :: m in order <==> m in g.mods)
    && forall i, j :: 0 <= i < j < |order| ==> order[i] != order[j]
  }

  // Output gates in the first j modules and the first i slots of the next.
  ghost function Seen(g: Graph, order: seq<string>, j: nat, i: nat): set<nat>
    requires j <= |order|
  {
    set a | a in g.og && (g.og[a].mod in order[..j] || (j < |order| && g.og[a].mod == order[j] && g.og[a].idx < i))
  }

  ghost function IGatesOf(g: Graph, s: set<nat>): set<nat> {
    set a | a in s && a in g.og :: g.og[a].igate
  }

  lemma SeenSlot(g: Graph, order: seq<string>, j: nat, i: nat)
    requires Consistent(g) && Lists(order, g) && j < |order| && i < |g.mods[order[j]].ogates|
    ensures var p := g.mods[order[j]].ogates[i];
      if p == Null then Seen(g, order, j, i + 1) == Seen(g, order, j, i)
      else && p.addr in g.og && g.og[p.addr].igate in g.ig && p.addr !in Seen(g, order, j, i)
           && Seen(g, order, j, i + 1) == Seen(g, order, j, i) + {p.addr}
  {
    var m := order[j];
    var p := g.mods[m].ogates[i];
    SlotHolder(g, m, i);
    assert m !in order[..j];
    hide Consistent, Lists;
    forall a ensures a in Seen(g, order, j, i + 1) <==> a in Seen(g, order, j, i) || (a in g.og && p == To(a)) {}
  }

  // The only output gate of a slot is the one it points to.
  lemma SlotHolder(g: Graph, m: string, i: nat)
    requires Consistent(g) && m in g.mods && i < |g.mods[m].ogates|
    ensures var p := g.mods[m].ogates[i];
      && (p != Null ==> p.addr in g.og && g.og[p.addr].igate in g.ig && g.og[p.addr].mod == m && g.og[p.addr].idx == i)
      && forall a :: a in g.og && g.og[a].mod == m && g.og[a].idx == i ==> p == To(a)
  {
    var p := g.mods[m].ogates[i];
    assert SlotsOk(g, m);
    assert p != Null ==> OGateOk(g, p.addr);
    forall a | a in g.og && g.og[a].mod == m && g.og[a].idx == i ensures p == To(a) {
      assert OGateOk(g, a);
    }
  }

  lemma OGatesSeated(g: Graph)
    requires Consistent(g)
    ensures forall a :: a in g.og ==>
      g.og[a].mod in g.mods && g.og[a].idx < |g.mods[g.og[a].mod].ogates| && g.og[a].igate in g.ig
  {
    forall a | a in g.og ensures g.og[a].mod in g.mods && g.og[a].idx < |g.mods[g.og[a].mod].ogates| && g.og[a].igate in g.ig {
      assert OGateOk(g, a);
    }
  }

  lemma SeenModule(g: Graph, order: seq<string>, j: nat)
    requires Consistent(g) && Lists(order, g) && j < |order|
    ensures Seen(g, order, j, |g.mods[order[j]].ogates|) == Seen(g, order, j + 1, 0)
  {
    OGatesSeated(g);
    hide Consistent;
    assert forall m :: m in order[..j + 1] <==> m in order[..j] || m == order[j];
  }

  lemma SeenAll(g: Graph, order: seq<string>)
    requires Consistent(g) && Lists(order, g)
    ensures Seen(g, order, |order|, 0) == g.og.Keys && Seen(g, order, 0, 0) == {} && IGatesOf(g, g.og.Keys) == g.ig.Keys
  {
    OGatesSeated(g);
    IGatesFed(g);
    hide Consistent;
    assert order[..|order|] == order;
  }

  // Every live input gate has an output gate leading to it.
  lemma IGatesFed(g: Graph)
    requires Consistent(g)
    ensures forall b :: b in g.ig ==> b in IGatesOf(g, g.og.Keys)
  {
    forall b | b in g.ig ensures b in IGatesOf(g, g.og.Keys) {
      assert IGateOk(g, b);
      assert g.ig[b].upstream[0] in g.ig[b].upstream;
    }
  }

  lemma IGatesMore(g: Graph, s: set<nat>, a: nat)
    requires a in g.og
    ensures IGatesOf(g, s + {a}) == IGatesOf(g, s) + {g.og[a].igate}
  {
  }

  // The queues order output gates by address, largest first, and input gates by
  // priority, smallest first.
  ghost function OKeys(g: Graph): map<nat, int> {
    map a | a in g.og :: -a
  }

  ghost function IKeys(g: Graph): map<nat, int> {
    map b | b in g.ig :: g.ig[b].priority
  }

  // Progress of collecting the gates: the output gates in seen, and their input
  // gates.
  ghost predicate Collected(g: Graph, oq: seq<Entry<nat>>, iq: seq<Entry<nat>>, pushed: set<nat>, seen: set<nat>) {
    && IsHeap(oq) && IsHeap(iq) && Holds(oq, seen, OKeys(g))
    && pushed == IGatesOf(g, seen) && Holds(iq, pushed, IKeys(g))
  }

  lemma CollectStart(g: Graph)
    ensures Collected(g, [], [], {}, {})
  {
  }

  lemma CollectEnd(g: Graph, oq: seq<Entry<nat>>, iq: seq<Entry<nat>>, pushed: set<nat>)
    requires Collected(g, oq, iq, pushed, g.og.Keys) && IGatesOf(g, g.og.Keys) == g.ig.Keys
    ensures IsHeap(oq) && Holds(oq, g.og.Keys, OKeys(g)) && IsHeap(iq) && Holds(iq, g.ig.Keys, IKeys(g))
  {
  }

  lemma DrainStart(q: seq<Entry<nat>>, all: set<nat>, key: map<nat, int>)
    requires Holds(q, all, key)
    ensures Drained(q, [], all, key)
  {
    assert Left(all, []) == all;
  }

  ghost predicate SameI(a: map<nat, IGate>, b: map<nat, IGate>) {
    a.Keys == b.Keys && forall x :: x in a ==> b[x] == a[x].(unique := b[x].unique)
  }

  ghost predicate SameO(a: map<nat, OGate>, b: map<nat, OGate>) {
    a.Keys == b.Keys && forall x :: x in a ==> b[x] == a[x].(unique := b[x].unique)
  }

  ghost predicate SameButUnique(g: Graph, h: Graph) {
    h.mods == g.mods && h.brk == g.brk && SameI(g.ig, h.ig) && SameO(g.og, h.og)
  }

  lemma UniqueO(g: Graph, h: Graph, a: nat)
    requires SameButUnique(g, h) && a in g.og && OGateOk(g, a)
    ensures OGateOk(h, a) && LinkOf(h.og[a]) == LinkOf(g.og[a])
  {
  }

  lemma UniqueI(g: Graph, h: Graph, b: nat)
    requires SameButUnique(g, h) && b in g.ig && IGateOk(g, b)
    ensures IGateOk(h, b)
  {
  }

  lemma UniqueSlots(g: Graph, h: Graph, m: string)
    requires SameButUnique(g, h) && m in g.mods && SlotsOk(g, m)
    ensures SlotsOk(h, m)
  {
  }

  lemma UniqueKeeps(g: Graph, h: Graph)
    requires Consistent(g) && SameButUnique(g, h)
    ensures Consistent(h) && Links(h) == Links(g)
  {
    hide OGateOk, IGateOk, SlotsOk, LinkOf;
    forall a | a in h.og ensures OGateOk(h, a) && LinkOf(h.og[a]) == LinkOf(g.og[a]) { UniqueO(g, h, a); }
    forall b | b in h.ig ensures IGateOk(h, b) { UniqueI(g, h, b); }
    forall x | x in h.mods ensures SlotsOk(h, x) { UniqueSlots(g, h, x); }
  }

  class ModuleGraph {
    var mods: map<string, Module>   // all_modules_
    var ig: map<nat, IGate>         // live input gates
    var og: map<nat, OGate>         // live output gates
    var brk: nat                    // addresses from here on are unused

    ghost function G(): Graph
      reads this
    {
      Graph(mods, ig, og, brk)
    }

    constructor ()
      ensures Consistent(G()) && mods == map[] && Links(G()) == {}
    {
      mods := map[];
      ig := map[];
      og := map[];
      brk := 0;
    }

    method ConnectModules(m: string, oi: nat, n: string, ii: nat) returns (ret: int)
      requires Consistent(G()) && m in mods && n in mods
      modifies this
      ensures Consistent(G()) && SameModules(old(mods), mods)
      ensures ret == EINVAL <==> (oi >= old(mods)[m].numOGates || oi >= MAX_GATES ||
                                  ii >= old(mods)[n].numIGates || ii >= MAX_GATES)
      ensures ret == EBUSY || ret == 0 || ret == EINVAL
      ensures ret == EBUSY ==> exists l :: l in old(Links(G())) && l.mod == m && l.ogate == oi
      ensures ret == 0 ==> !exists l :: l in old(Links(G())) && l.mod == m && l.ogate == oi
      ensures Links(G()) == old(Links(G())) + if ret == 0 then {Link(m, oi, n, ii)} else {}
    {
      if oi >= mods[m].numOGates || oi >= MAX_GATES {
        return EINVAL;
      }
      if ii >= mods[n].numIGates || ii >= MAX_GATES {
        return EINVAL;
      }
      ret := ConnectGate(m, oi, n, ii);
    }

    method ConnectGate(m: string, oi: nat, n: string, ii: nat) returns (ret: int)
      requires Consistent(G()) && m in mods && n in mods && oi < mods[m].numOGates && ii < mods[n].numIGates
      modifies this
      ensures Consistent(G()) && SameModules(old(mods), mods)
      ensures ret == if exists l :: l in old(Links(G())) && l.mod == m && l.ogate == oi then EBUSY else 0
      ensures Links(G()) == old(Links(G())) + if ret == 0 then {Link(m, oi, n, ii)} else {}
    {
      hide Consistent, ConsistentBut, Links;
      SlotLink(G(), m, oi);
      if oi < |mods[m].ogates| && mods[m].ogates[oi] != Null {
        return EBUSY;
      }
      GrowSlots(m, oi, n, ii);
      var b := FindOrAddIGate(n, ii);
      ghost var t := Attached(G(), m, oi, b);
      AttachKeeps(G(), m, oi, b);
      OSlotShape(mods, m, oi, To(brk));
      var a := brk;
      var up := ig[b].upstream + [a];
      hide WithOSlot;
      mods, brk := WithOSlot(mods, m, oi, To(a)), brk + 1;
      og := og[a := OGate(m, oi, n, b, ig[b].idx, 0)];
      ig := ig[b := ig[b].(upstream := up, mergeable := |up| > 1)];
      assert G() == t;
      return 0;
    }

    method GrowSlots(m: string, oi: nat, n: string, ii: nat)
      requires Consistent(G()) && m in mods && n in mods && oi < mods[m].numOGates && ii < mods[n].numIGates
      requires oi >= |mods[m].ogates| || mods[m].ogates[oi] == Null
      modifies this`mods
      ensures Consistent(G()) && Links(G()) == old(Links(G())) && SameModules(old(mods), mods)
      ensures oi < |mods[m].ogates| && mods[m].ogates[oi] == Null && ii < |mods[n].igates|
    {
      hide Consistent, ConsistentBut, Links, Resized;
      ResizeOKeeps(G(), m, oi + 1);
      mods := mods[m := mods[m].(ogates := Resized(mods[m].ogates, oi + 1))];
      ResizeIKeeps(G(), n, ii + 1);
      mods := mods[n := mods[n].(igates := Resized(mods[n].igates, ii + 1))];
    }

    // The input gate in slot ii of n, a new one if there is none.
    method FindOrAddIGate(n: string, ii: nat) returns (b: nat)
      requires Consistent(G()) && n in mods && ii < |mods[n].igates|
      modifies this
      ensures ConsistentBut(G(), {b}) && Links(G()) == old(Links(G())) && og == old(og)
      ensures b in ig && ig[b].mod == n && ig[b].idx == ii
      ensures SameModules(old(mods), mods)
      ensures SameOGates(old(mods), mods)
    {
      hide Consistent, ConsistentBut, Links, WithISlot, SameModules, SameOGates;
      ISlotLive(G(), n, ii);
      if mods[n].igates[ii] == Null {
        NewIGateKeeps(G(), n, ii);
        ISlotShape(mods, n, ii, To(brk));
        b := brk;
        mods, ig, brk := WithISlot(mods, n, ii, To(b)), ig[b := IGate(n, ii, [], false, 0, 0)], brk + 1;
      } else {
        SameHere(mods);
        b := mods[n].igates[ii].addr;
      }
    }

    // IGate::RemoveOgate; k is where a was found.
    method RemoveOgate(b: nat, a: nat) returns (ghost k: nat)
      requires b in ig
      modifies this`ig
      ensures var i := old(ig)[b];
              if a in i.upstream
              then k < |i.upstream| && i.upstream[k] == a && a !in i.upstream[..k]
                   && ig == old(ig)[b := i.(upstream := i.upstream[..k] + i.upstream[k + 1..])]
              else ig == old(ig)[b := i.(mergeable := |i.upstream| > 1)]
    {
      var up := ig[b].upstream;
      for i := 0 to |up|
        invariant a !in up[..i] && ig == old(ig)
      {
        if up[i] == a {
          ig := ig[b := ig[b].(upstream := up[..i] + up[i + 1..])];
          return i;
        }
      }
      assert up[..|up|] == up;
      k := 0;
      ig := ig[b := ig[b].(mergeable := |up| > 1)];
    }

    method DisconnectGate(m: string, oi: nat)
      requires Consistent(G()) && m in mods
      modifies this
      ensures Consistent(G()) && SameModules(old(mods), mods)
      ensures Links(G()) == old(LinksBut(G(), m, oi))
      ensures SameSizes(old(mods), mods)
    {
      hide Consistent, Links;
      SlotLink(G(), m, oi);
      if oi >= |mods[m].ogates| || mods[m].ogates[oi] == Null {
        return;
      }
      OSlotLive(G(), m, oi);
      ghost var g := G();
      var a := mods[m].ogates[oi].addr;
      var b := og[a].igate;
      ghost var k := RemoveOgate(b, a);
      CutKeeps(g, a, k);
      SlotsCommute(mods, m, oi, ig[b].mod, ig[b].idx);
      if ig[b].upstream == [] {
        mods, ig := WithISlot(mods, ig[b].mod, ig[b].idx, Null), ig - {b};
      }
      mods, og := WithOSlot(mods, m, oi, Null), og - {a};
      assert G() == Cut(g, a, k);
    }

    method DisconnectModule(m: string, oi: nat) returns (ret: int)
      requires Consistent(G()) && m in mods
      modifies this
      ensures Consistent(G()) && SameModules(old(mods), mods)
      ensures ret == if oi >= old(mods)[m].numOGates then EINVAL else 0
      ensures Links(G()) == old(LinksBut(G(), m, oi))
    {
      SlotLink(G(), m, oi);
      assert SlotsOk(G(), m);
      if oi >= mods[m].numOGates {
        return EINVAL;
      }
      DisconnectGate(m, oi);
      return 0;
    }

    method DisconnectModulesUpstream(m: string, ii: nat)
      requires Consistent(G()) && m in mods && ii < mods[m].numIGates
      modifies this
      ensures Consistent(G()) && SameModules(old(mods), mods) && SameSizes(old(mods), mods)
      ensures Links(G()) == old(LinksNotTo(G(), m, ii))
    {
      hide Consistent, ConsistentBut, Links, LinksNotTo, Deleting, WithOSlot, WithISlot, SameModules, SameSizes;
      if ii >= |mods[m].igates| || mods[m].igates[ii] == Null {
        SameHere(mods);
        NoneTo(G(), m, ii);
        return;
      }
      ISlotLive(G(), m, ii);
      ghost var g := G();
      var b := mods[m].igates[ii].addr;
      var up := ig[b].upstream;
      DeleteStart(g, b);
      for k := 0 to |up|
        invariant Deleting(g, G(), b, up[k..])
      {
        DeleteStep(g, G(), b, up[k..]);
        assert up[k..][1..] == up[k + 1..];
        var a := up[k];
        mods, og := WithOSlot(mods, og[a].mod, og[a].idx, Null), og - {a};
      }
      DeleteDone(g, G(), b);
      mods, ig := WithISlot(mods, ig[b].mod, ig[b].idx, Null), ig - {b};
    }

    // A new module has no gates yet.
    method CreateModule(m: string, numIGates: nat, numOGates: nat) returns (ok: bool)
      requires Consistent(G())
      modifies this`mods
      ensures Consistent(G()) && ok == (m !in old(mods))
      ensures mods == if ok then old(mods)[m := Module([], [], numIGates, numOGates)] else old(mods)
      ensures Links(G()) == old(Links(G()))
    {
      if m in mods {
        return false;
      }
      CreateKeeps(G(), m, numIGates, numOGates);
      mods := mods[m := Module([], [], numIGates, numOGates)];
      return true;
    }

    method DestroyModule(m: string)
      requires Consistent(G()) && m in mods
      modifies this
      ensures Consistent(G()) && Links(G()) == old(LinksWithout(G(), m))
      ensures mods.Keys == old(mods).Keys - {m}
      ensures forall a :: a in og ==> og[a].mod != m && og[a].next != m
      ensures forall b :: b in ig ==> ig[b].mod != m
    {
      hide Consistent, Links, LinksPastI, LinksPastO, LinksWithout, LinksNotTo, LinksBut, SameModules;
      ghost var g := G();
      PastNone(g, m);
      SameHere(mods);
      for i := 0 to |mods[m].igates|
        invariant Consistent(G()) && SameSizes(g.mods, mods) && Links(G()) == LinksPastI(g, m, i)
      {
        NoSlots(G(), m);
        PastI(g, G(), m, i);
        DisconnectModulesUpstream(m, i);
      }
      ghost var h := G();
      PastNone(h, m);
      for i := 0 to |mods[m].ogates|
        invariant Consistent(G()) && SameSizes(g.mods, mods) && Links(G()) == LinksPastO(h, m, i)
      {
        PastO(h, G(), m, i);
        DisconnectGate(m, i);
      }
      PastAll(g, h, G(), m);
      WithoutTwice(g, G(), m);
      EraseKeeps(G(), m);
      mods := mods - {m};
    }

    // The first part of SetUniqueGateIdx: all live gates, each once.
    method CollectGates(order: seq<string>) returns (oq: seq<Entry<nat>>, iq: seq<Entry<nat>>)
      requires Consistent(G()) && Lists(order, G())
      ensures IsHeap(oq) && Holds(oq, og.Keys, OKeys(G()))
      ensures IsHeap(iq) && Holds(iq, ig.Keys, IKeys(G()))
    {
      hide Consistent, Seen, Collected;
      ghost var g := G();
      SeenAll(g, order);
      CollectStart(g);
      var pushed: set<nat> := {};
      oq, iq := [], [];
      for j := 0 to |order|
        invariant Collected(g, oq, iq, pushed, Seen(g, order, j, 0))
      {
        for i := 0 to |mods[order[j]].ogates|
          invariant Collected(g, oq, iq, pushed, Seen(g, order, j, i))
        {
          var p := mods[order[j]].ogates[i];
          SeenSlot(g, order, j, i);
          if p == Null {
            continue;
          }
          oq, iq, pushed := CollectGate(p.addr, oq, iq, pushed, Seen(g, order, j, i));
        }
        SeenModule(g, order, j);
      }
      CollectEnd(g, oq, iq, pushed);
    }

    method CollectGate(a: nat, oq: seq<Entry<nat>>, iq: seq<Entry<nat>>, pushed: set<nat>, ghost seen: set<nat>)
      returns (oq': seq<Entry<nat>>, iq': seq<Entry<nat>>, pushed': set<nat>)
      requires Collected(G(), oq, iq, pushed, seen) && a in og && og[a].igate in ig && a !in seen
      ensures Collected(G(), oq', iq', pushed', seen + {a})
    {
      hide Holds, IsHeap, IGatesOf;
      var addr: int := a;
      oq' := Push(oq, Entry(-addr, a));
      HoldsPush(oq, oq', seen, OKeys(G()), a);
      IGatesMore(G(), seen, a);
      iq', pushed' := iq, pushed;
      var b := og[a].igate;
      if b in pushed {
        assert pushed + {b} == pushed;
      } else {
        pushed' := pushed + {b};
        iq' := Push(iq, Entry(ig[b].priority, b));
        HoldsPush(iq, iq', pushed, IKeys(G()), b);
      }
    }

    // Live gates get the indices 0 to gate_cnt_ - 1, one each: first the input
    // gates by priority, then the output gates.
    method SetUniqueGateIdx(order: seq<string>) returns (gateCnt: nat, ghost ins: seq<nat>, ghost outs: seq<nat>)
      requires Consistent(G()) && Lists(order, G())
      modifies this`ig, this`og
      ensures Listing(ins, ig.Keys) && Listing(outs, og.Keys) && gateCnt == |ins| + |outs|
      ensures forall i :: 0 <= i < |ins| ==> ins[i] in ig && ig[ins[i]].unique == i
      ensures forall i :: 0 <= i < |outs| ==> outs[i] in og && og[outs[i]].unique == |ins| + i
      ensures forall i, j :: 0 <= i < j < |ins| ==> ig[ins[i]].priority <= ig[ins[j]].priority
      ensures SameButUnique(old(G()), G()) && Consistent(G()) && Links(G()) == old(Links(G()))
    {
      hide Consistent, IsHeap, Links, Holds, Listing;
      ghost var g := G();
      var oq, iq := CollectGates(order);
      gateCnt, ins := NumberIGates(iq);
      gateCnt, outs := NumberOGates(oq, gateCnt);
      UniqueKeeps(g, G());
    }

    method NumberIGates(queue: seq<Entry<nat>>) returns (cnt: nat, ghost ins: seq<nat>)
      requires IsHeap(queue) && Holds(queue, ig.Keys, IKeys(G()))
      modifies this`ig
      ensures SameI(old(ig), ig) && Listing(ins, ig.Keys) && cnt == |ins|
      ensures forall i :: 0 <= i < |ins| ==> ins[i] in ig && ig[ins[i]].unique == i
      ensures forall i, j :: 0 <= i < j < |ins| ==> ig[ins[i]].priority <= ig[ins[j]].priority
    {
      hide Drained, IsHeap, Holds;
      ghost var key, all := IKeys(G()), ig.Keys;
      var q := queue;
      cnt := 0;
      DrainStart(q, all, key);
      ins := [];
      while q != []
        invariant IsHeap(q) && Drained(q, ins, all, key) && cnt == |ins|
        invariant SameI(old(ig), ig) && forall i :: 0 <= i < |ins| ==> ins[i] in ig && ig[ins[i]].unique == i
        decreases |q|
      {
        var b := q[0].val;
        var rest := Pop(q);
        DrainStep(q, rest, ins, all, key);
        q := rest;
        ins := ins + [b];
        ig := ig[b := ig[b].(unique := cnt)];
        cnt := cnt + 1;
      }
      DrainDone(ins, all, key);
    }

    method NumberOGates(queue: seq<Entry<nat>>, start: nat) returns (cnt: nat, ghost outs: seq<nat>)
      requires IsHeap(queue) && Holds(queue, og.Keys, OKeys(G()))
      modifies this`og
      ensures SameO(old(og), og) && Listing(outs, og.Keys) && cnt == start + |outs|
      ensures forall i :: 0 <= i < |outs| ==> outs[i] in og && og[outs[i]].unique == start + i
    {
      hide Drained, IsHeap, Holds;
      ghost var key, all := OKeys(G()), og.Keys;
      var q := queue;
      cnt := start;
      DrainStart(q, all, key);
      outs := [];
      while q != []
        invariant IsHeap(q) && Drained(q, outs, all, key) && cnt == start + |outs|
        invariant SameO(old(og), og) && forall i :: 0 <= i < |outs| ==> outs[i] in og && og[outs[i]].unique == start + i
        decreases |q|
      {
        var a := q[0].val;
        var rest := Pop(q);
        DrainStep(q, rest, outs, all, key);
        q := rest;
        outs := outs + [a];
        og := og[a := og[a].(unique := cnt)];
        cnt := cnt + 1;
      }
      DrainDone(outs, all, key);
    }
  }
}
