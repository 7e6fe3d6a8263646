/** Two module graphs on which the discovery of scope components misses a module
    without inputs: its component stays valid, and a packet reaches a reader of
    the attribute past no writer. */
module MetadataOpenScopes {
  import opened MetadataScopes

  datatype Node = W | V | P | X | Y

  const ATTR := "a"
  const WR := Attribute(ATTR, 4, Write)
  const RD := Attribute(ATTR, 4, Read)

  // W and V write, P reads. W feeds P, V feeds P and X, Y feeds X, X feeds P.
  ghost function TwoWriters(): Graph<Node> {
    Graph({W, V, P, X, Y},
          map[W := [P], V := [P, X], X := [P], Y := [X], P := []],
          map[W := [], V := [], X := [V, Y], Y := [], P := [W, V, X]], {W, V, Y},
          map[W := map[ATTR := WR], V := map[ATTR := WR], P := map[ATTR := RD], X := map[], Y := map[]])
  }

  // W writes, V reads. W feeds P, P feeds X and V, X feeds P back, Y feeds X.
  ghost function Cycle(): Graph<Node> {
    Graph({W, V, P, X, Y},
          map[W := [P], P := [X, V], X := [P], Y := [X], V := []],
          map[W := [], P := [W, X], X := [P, Y], Y := [], V := [P]], {W, Y},
          map[W := map[ATTR := WR], V := map[ATTR := RD], P := map[], X := map[], Y := map[]])
  }

  // What the walks look at.
  ghost predicate Shows(s: State<Node>, mods: set<Node>, marked: set<Node>, open: set<Node>) {
    && |s.comps| == 1 && s.comps[0].attr == ATTR && s.comps[0].modules == mods && !s.comps[0].invalid
    && (forall n :: IsMarked(s, n) <==> n in marked) && (forall n :: IsOpen(s, n, ATTR) <==> n in open)
  }

  lemma Marks(s: State<Node>, n: Node, mods: set<Node>, marked: set<Node>, open: set<Node>)
    requires Shows(s, mods, marked, open)
    ensures Shows(Mark(s, n, 1), mods, marked + {n}, open) && Shows(Mark(s, n, -1), mods, marked - {n}, open)
  {
    forall x | x != n ensures IsMarked(Mark(s, n, 1), x) == IsMarked(s, x) == IsMarked(Mark(s, n, -1), x) {}
    forall x ensures IsOpen(Mark(s, n, 1), x, ATTR) == IsOpen(s, x, ATTR) == IsOpen(Mark(s, n, -1), x, ATTR) {}
  }

  lemma Adds(s: State<Node>, n: Node, attr: Attribute, mods: set<Node>, marked: set<Node>, open: set<Node>)
    requires Shows(s, mods, marked, open) && mods != {}
    ensures Shows(AddedTo(s, n, attr), mods + {n}, marked, open)
  {
    AddedShape(s.comps[0], n, attr);
    var t := AddedTo(s, n, attr);
    forall x ensures IsMarked(t, x) == IsMarked(s, x) && IsOpen(t, x, ATTR) == IsOpen(s, x, ATTR) {}
  }

  lemma Identifies(s: State<Node>, n: Node, mods: set<Node>, marked: set<Node>, open: set<Node>)
    requires Shows(s, mods, marked, open)
    ensures Shows(Identify(s, n, ATTR), mods, marked, open - {n})
  {
    var t := Identify(s, n, ATTR);
    forall x ensures IsMarked(t, x) == IsMarked(s, x) {}
    forall x | x != n ensures IsOpen(t, x, ATTR) == IsOpen(s, x, ATTR) {}
  }

  // The first step of the component of W.
  lemma Opens(g: Graph<Node>, open: set<Node>)
    requires g.modules == {W, V, P, X, Y} && g.attrs.Keys == g.modules
    requires forall n :: n in open <==> n in g.modules && ATTR in g.attrs[n]
    ensures var s := Opened(Initial(g), W);
      |s.comps| == 1 && Shows(Mark(Identify(AddedTo(s, W, WR), W, ATTR), W, 1), {W}, {W}, open - {W})
  {
    var s := Opened(Initial(g), W);
    var t := Mark(Identify(AddedTo(s, W, WR), W, ATTR), W, 1);
    forall n ensures IsMarked(t, n) <==> n == W {}
    forall n ensures IsOpen(t, n, ATTR) <==> n in open - {W} {}
  }

  // ---- single steps ----

  lemma Seen(s: State<Node>, mods: set<Node>, marked: set<Node>, open: set<Node>)
    requires Shows(s, mods, marked, open)
    ensures |s.comps| == 1 && s.comps != [] && forall n :: IsMarked(s, n) <==> n in marked
  {
  }

  lemma UpJoins(g: Graph<Node>, s: State<Node>, n: Node, mods: set<Node>, marked: set<Node>, open: set<Node>)
    requires Shows(s, mods, marked, open) && mods != {} && if Writes(g, n, ATTR) then n !in open else n in marked
    ensures RunsUp(g, s, n, WR, AddedTo(s, n, WR)) && Shows(AddedTo(s, n, WR), mods + {n}, marked, open)
  {
    Adds(s, n, WR, mods, marked, open);
    if Writes(g, n, ATTR) { UpAtWriter(g, s, n, WR, AddedTo(s, n, WR)); } else { UpStops(g, s, n, WR); }
  }

  // A module whose only child is marked is walked and left out.
  lemma DownLeaves(g: Graph<Node>, s: State<Node>, n: Node, d: Node, mods: set<Node>, marked: set<Node>, open: set<Node>)
    requires Shows(s, mods, marked, open) && n !in marked && d in marked
    requires n in g.down && g.down[n] == [d] && d in g.down && n in g.attrs && ATTR !in g.attrs[n]
    ensures RunsDown(g, s, n, WR, Mark(s, n, 1), false) && Shows(Mark(s, n, 1), mods, marked + {n}, open)
  {
    hide RunsDown, RunsDownAll;
    var t := Mark(s, n, 1);
    Marks(s, n, mods, marked, open);
    DownStops(g, t, d, WR);
    AllNone(g, t, [d], WR);
    DownAllNext(g, t, [d], 0, WR, t, false, t, false);
    assert [d][..1] == [d];
    DownPasses(g, s, n, WR, t, t, false);
  }

  // A reader behind which nothing is: it joins, and its mark is cleared.
  lemma ReaderJoins(g: Graph<Node>, s: State<Node>, n: Node, mods: set<Node>, marked: set<Node>, open: set<Node>)
      returns (v: State<Node>, u: State<Node>)
    requires Shows(s, mods, marked, open) && mods != {} && n !in marked
    requires n in g.down && g.down[n] == [] && n in g.attrs && ATTR in g.attrs[n] && g.attrs[n][ATTR] == RD
    ensures ReadsOn(g, Mark(s, n, 1), n, WR, v) && v.comps != [] && u == Mark(AddedTo(Mark(v, n, -1), n, WR), n, 1)
    ensures !IsMarked(AddedTo(Mark(v, n, -1), n, WR), n) && |AddedTo(Mark(v, n, -1), n, WR).comps| == 1
    ensures Shows(u, mods + {n}, marked + {n}, open - {n})
  {
    hide RunsDownAll;
    var x := Mark(s, n, 1);
    Marks(s, n, mods, marked, open);
    Adds(x, n, RD, mods, marked + {n}, open);
    v := Identify(AddedTo(x, n, RD), n, ATTR);
    Identifies(AddedTo(x, n, RD), n, mods + {n}, marked + {n}, open);
    AllNone(g, v, [], WR);
    var y := Mark(v, n, -1);
    Marks(v, n, mods + {n}, marked + {n}, open - {n});
    var z := AddedTo(y, n, WR);
    Adds(y, n, WR, mods + {n}, marked + {n} - {n}, open - {n});
    u := Mark(z, n, 1);
    assert mods + {n} + {n} == mods + {n} && marked + {n} - {n} + {n} == marked + {n};
    Marks(z, n, mods + {n}, marked + {n} - {n}, open - {n});
  }

  // ---- the second writer ----

  // The walk of V in the middle of the walk of P: X is visited, finds P in
  // progress, and is left out.
  lemma FromV(s: State<Node>) returns (t: State<Node>)
    requires Shows(s, {W, P, V}, {W, P}, {V})
    ensures RunsFrom(TwoWriters(), s, V, WR, t) && Shows(t, {W, P, V}, {W, P, V, X}, {})
  {
    hide RunsFrom, RunsDown, RunsDownAll, Shows;
    var g := TwoWriters();
    assert |s.comps| == 1 by { Seen(s, {W, P, V}, {W, P}, {V}); }
    Adds(s, V, WR, {W, P, V}, {W, P}, {V});
    assert {W, P, V} + {V} == {W, P, V} && {V} - {V} == {} && {W, P} + {V} == {W, P, V} && {W, P, V} + {X} == {W, P, V, X};
    Identifies(AddedTo(s, V, WR), V, {W, P, V}, {W, P}, {V});
    Marks(Identify(AddedTo(s, V, WR), V, ATTR), V, {W, P, V}, {W, P}, {});
    var u := Mark(Identify(AddedTo(s, V, WR), V, ATTR), V, 1);
    Seen(u, {W, P, V}, {W, P, V}, {});
    DownStops(g, u, P, WR);
    DownLeaves(g, u, X, P, {W, P, V}, {W, P, V}, {});
    t := Mark(u, X, 1);
    AllNone(g, u, [P, X], WR);
    DownAllNext(g, u, [P, X], 0, WR, u, false, u, false);
    DownAllNext(g, u, [P, X], 1, WR, u, false, t, false);
    assert [P, X][..2] == [P, X];
    FromWalks(g, s, V, WR, t, false);
  }

  // The walk upstream of P: V is walked, X joins without being walked.
  lemma AboveP(s: State<Node>) returns (t: State<Node>)
    requires Shows(s, {W, P}, {W, P}, {V})
    ensures RunsUpAll(TwoWriters(), s, [W, V, X], WR, t) && Shows(t, {W, P, V, X}, {W, P, V, X}, {})
  {
    hide RunsFrom, RunsUp, RunsUpAll;
    var g := TwoWriters();
    var us := [W, V, X];
    UpJoins(g, s, W, {W, P}, {W, P}, {V});
    var a := AddedTo(s, W, WR);
    assert {W, P} + {W} == {W, P};
    Adds(a, V, WR, {W, P}, {W, P}, {V});
    assert {W, P} + {V} == {W, P, V};
    var b := FromV(AddedTo(a, V, WR));
    UpAtWriter(g, a, V, WR, b);
    UpJoins(g, b, X, {W, P, V}, {W, P, V, X}, {});
    t := AddedTo(b, X, WR);
    assert {W, P, V} + {X} == {W, P, V, X};
    AllNone(g, s, us, WR);
    UpAllNext(g, s, us, 0, WR, s, a);
    UpAllNext(g, s, us, 1, WR, a, b);
    UpAllNext(g, s, us, 2, WR, b, t);
    assert us[..3] == us;
  }

  lemma DownP(s: State<Node>) returns (t: State<Node>)
    requires Shows(s, {W}, {W}, {V, P})
    ensures RunsDown(TwoWriters(), s, P, WR, t, true) && Shows(t, {W, P, V, X}, {W, P, V, X}, {})
  {
    hide RunsUp, RunsUpAll, RunsDown, ReadsOn, Shows;
    var g := TwoWriters();
    assert s.comps != [] && !IsMarked(s, P) && |s.comps| == 1 by { Seen(s, {W}, {W}, {V, P}); }
    var v, b := ReaderJoins(g, s, P, {W}, {W}, {V, P});
    assert {W} + {P} == {W, P} && {V, P} - {P} == {V};
    t := AboveP(b);
    assert Climbs(g, b, P, WR, Settle(g, t, P));
    UpClimbs(g, Mark(v, P, -1), P, WR, t);
    DownReads(g, s, P, WR, v, t);
  }

  lemma FromW(s: State<Node>) returns (t: State<Node>)
    requires s == Opened(Initial(TwoWriters()), W)
    ensures RunsFrom(TwoWriters(), s, W, WR, t) && Shows(t, {W, P, V, X}, {W, P, V, X}, {})
  {
    hide RunsFrom, RunsDown, RunsDownAll, Shows, AddedTo, Identify, Mark, Opened, Initial;
    var g := TwoWriters();
    Opens(g, {W, V, P});
    assert {W, V, P} - {W} == {V, P};
    var a := Mark(Identify(AddedTo(s, W, WR), W, ATTR), W, 1);
    t := DownP(a);
    AllNone(g, a, [P], WR);
    DownAllNext(g, a, [P], 0, WR, a, false, t, true);
    assert [P][..1] == [P];
    FromWalks(g, s, W, WR, t, true);
  }

  // ---- the cycle ----

  // The walk of V, a reader behind P: P joins while it is in progress.
  lemma DownV(s: State<Node>) returns (t: State<Node>)
    requires Shows(s, {W}, {W, P, X}, {V})
    ensures RunsDown(Cycle(), s, V, WR, t, true) && Shows(t, {W, V, P}, {W, P, X, V}, {})
  {
    hide RunsUp, RunsUpAll, RunsDown, ReadsOn, Shows;
    var g := Cycle();
    Seen(s, {W}, {W, P, X}, {V});
    var v, b := ReaderJoins(g, s, V, {W}, {W, P, X}, {V});
    assert {W} + {V} == {W, V} && {W, P, X} + {V} == {W, P, X, V} && {V} - {V} == {} && {W, V} + {P} == {W, V, P};
    UpJoins(g, b, P, {W, V}, {W, P, X, V}, {});
    t := AddedTo(b, P, WR);
    AllNone(g, b, [P], WR);
    UpAllNext(g, b, [P], 0, WR, b, t);
    assert [P][..1] == [P];
    assert Climbs(g, b, V, WR, Settle(g, t, V));
    UpClimbs(g, Mark(v, V, -1), V, WR, t);
    DownReads(g, s, V, WR, v, t);
  }

  // The walk upstream of P: X joins without being walked.
  lemma BackToP(s: State<Node>) returns (t: State<Node>)
    requires Shows(s, {W, V, P}, {W, P, X, V}, {})
    ensures RunsUpAll(Cycle(), s, [W, X], WR, t) && Shows(t, {W, V, P, X}, {W, P, X, V}, {})
  {
    hide RunsUp, RunsUpAll, Shows;
    var g := Cycle();
    assert {W, V, P} + {W} == {W, V, P} && {W, V, P} + {X} == {W, V, P, X};
    UpJoins(g, s, W, {W, V, P}, {W, P, X, V}, {});
    var a := AddedTo(s, W, WR);
    UpJoins(g, a, X, {W, V, P}, {W, P, X, V}, {});
    t := AddedTo(a, X, WR);
    AllNone(g, s, [W, X], WR);
    UpAllNext(g, s, [W, X], 0, WR, s, a);
    UpAllNext(g, s, [W, X], 1, WR, a, t);
    assert [W, X][..2] == [W, X];
  }

  // P joins the component and is walked upstream.
  lemma JoinP(s: State<Node>) returns (t: State<Node>)
    requires Shows(s, {W, V, P}, {W, P, X, V}, {})
    ensures s.comps != [] && RunsUp(Cycle(), Mark(AddedTo(s, P, WR), P, -1), P, WR, t)
    ensures Shows(t, {W, V, P, X}, {W, P, X, V}, {})
  {
    hide RunsUp, RunsUpAll, Shows;
    var g := Cycle();
    Seen(s, {W, V, P}, {W, P, X, V}, {});
    assert {W, V, P} + {P} == {W, V, P} && {W, P, X, V} - {P} == {W, X, V} && {W, X, V} + {P} == {W, P, X, V};
    Adds(s, P, WR, {W, V, P}, {W, P, X, V}, {});
    Marks(AddedTo(s, P, WR), P, {W, V, P}, {W, P, X, V}, {});
    var a := Mark(AddedTo(s, P, WR), P, -1);
    Adds(a, P, WR, {W, V, P}, {W, X, V}, {});
    var b := AddedTo(a, P, WR);
    Seen(b, {W, V, P}, {W, X, V}, {});
    Marks(b, P, {W, V, P}, {W, X, V}, {});
    t := BackToP(Mark(b, P, 1));
    assert Climbs(g, Mark(b, P, 1), P, WR, Settle(g, t, P));
    UpClimbs(g, a, P, WR, t);
  }

  // The walk of P: X, behind it, finds it in progress and is left out.
  lemma AroundP(s: State<Node>) returns (t: State<Node>)
    requires Shows(s, {W}, {W}, {V})
    ensures RunsDown(Cycle(), s, P, WR, t, true) && Shows(t, {W, V, P, X}, {W, P, X, V}, {})
  {
    hide RunsUp, RunsDown, RunsDownAll, Shows;
    var g := Cycle();
    Seen(s, {W}, {W}, {V});
    assert {W} + {P} == {W, P} && {W, P} + {X} == {W, P, X};
    Marks(s, P, {W}, {W}, {V});
    var a := Mark(s, P, 1);
    DownLeaves(g, a, X, P, {W}, {W, P}, {V});
    var b := Mark(a, X, 1);
    var c := DownV(b);
    AllNone(g, a, [X, V], WR);
    DownAllNext(g, a, [X, V], 0, WR, a, false, b, false);
    DownAllNext(g, a, [X, V], 1, WR, b, false, c, true);
    assert [X, V][..2] == [X, V];
    t := JoinP(c);
    DownPasses(g, s, P, WR, c, t, true);
  }

  lemma FromWAround(s: State<Node>) returns (t: State<Node>)
    requires s == Opened(Initial(Cycle()), W)
    ensures RunsFrom(Cycle(), s, W, WR, t) && Shows(t, {W, V, P, X}, {W, P, X, V}, {})
  {
    hide RunsFrom, RunsDown, RunsDownAll, Shows, AddedTo, Identify, Mark, Opened, Initial;
    var g := Cycle();
    Opens(g, {W, V});
    assert {W, V} - {W} == {V};
    var a := Mark(Identify(AddedTo(s, W, WR), W, ATTR), W, 1);
    t := AroundP(a);
    AllNone(g, a, [P], WR);
    DownAllNext(g, a, [P], 0, WR, a, false, t, true);
    assert [P][..1] == [P];
    FromWalks(g, s, W, WR, t, true);
  }

  // ---- the outcome ----

  // The one component found is valid, and yet packets that take route p reach a
  // reader in it without meeting a writer.
  ghost predicate Missed(g: Graph<Node>, t: State<Node>, p: seq<Node>) {
    && |t.comps| == 1 && !t.comps[0].invalid && t.comps[0].attr == ATTR && !UpstreamClosed(g, t.comps[0])
    && Route(g, p) && p[|p| - 1] in t.comps[0].modules && Reads(g, p[|p| - 1], ATTR)
    && forall i :: 0 <= i < |p| ==> !Writes(g, p[i], ATTR)
  }

  lemma Misses(g: Graph<Node>, t: State<Node>, p: seq<Node>, mods: set<Node>, marked: set<Node>)
    requires Shows(t, mods, marked, {}) && Route(g, p) && p[|p| - 1] in mods && Reads(g, p[|p| - 1], ATTR)
    requires forall i :: 0 <= i < |p| ==> !Writes(g, p[i], ATTR)
    requires X in mods && !Writes(g, X, ATTR) && X in g.up && Y in g.up[X] && Y !in mods
    ensures Missed(g, t, p)
  {
    assert !ClosedAt(g, t.comps[0], X);
  }

  // Once W has its component, nobody else gets one.
  lemma {:induction false} OnlyW(g: Graph<Node>, rest: seq<(Node, Attribute)>, t: State<Node>, mods: set<Node>, marked: set<Node>)
    requires g.modules <= g.attrs.Keys && Writes(g, W, ATTR) && IsOpen(Initial(g), W, ATTR)
    requires RunsFrom(g, Opened(Initial(g), W), W, WR, t) && Shows(t, mods, marked, {})
    requires forall r :: r in rest ==> r.1.name == ATTR
    ensures Discovers(g, Initial(g), [(W, WR)] + rest, t)
    decreases |rest|
  {
    hide RunsFrom, Initial, Opened, Discovers;
    var s, todo := Initial(g), [(W, WR)] + rest;
    var n := |rest|;
    if n == 0 {
      DiscoversNone(g, s, todo);
      DiscoversNext(g, s, todo, 0, s, t);
    } else {
      OnlyW(g, rest[..n - 1], t, mods, marked);
      assert todo[..n] == [(W, WR)] + rest[..n - 1] && todo[n] == rest[n - 1];
      DiscoversNext(g, s, todo, n, t, t);
    }
    assert todo[..n + 1] == todo;
  }

  // Two writers, on a graph without cycles, discovered from W.
  lemma SecondWriterMissed(rest: seq<(Node, Attribute)>, t: State<Node>)
    requires Discovers(TwoWriters(), Initial(TwoWriters()), [(W, WR)] + rest, t)
    requires forall r :: r in rest ==> r.1.name == ATTR
    ensures Missed(TwoWriters(), t, [Y, X, P])
  {
    hide RunsFrom, Discovers, Shows, Missed;
    var g := TwoWriters();
    var u := FromW(Opened(Initial(g), W));
    OnlyW(g, rest, u, {W, P, V, X}, {W, P, V, X});
    DiscoversOnce(g, Initial(g), [(W, WR)] + rest, t, u);
    Misses(g, u, [Y, X, P], {W, P, V, X}, {W, P, V, X});
  }

  // One writer, on a graph with a cycle.
  lemma CycleMissed(rest: seq<(Node, Attribute)>, t: State<Node>)
    requires Discovers(Cycle(), Initial(Cycle()), [(W, WR)] + rest, t)
    requires forall r :: r in rest ==> r.1.name == ATTR
    ensures Missed(Cycle(), t, [Y, X, P, V])
  {
    hide RunsFrom, Discovers, Shows, Missed;
    var g := Cycle();
    var u := FromWAround(Opened(Initial(g), W));
    OnlyW(g, rest, u, {W, V, P, X}, {W, P, X, V});
    DiscoversOnce(g, Initial(g), [(W, WR)] + rest, t, u);
    Misses(g, u, [Y, X, P, V], {W, V, P, X}, {W, P, X, V});
  }

  // ---- where the condition for closed components stands ----

  // An unknown writer u that feeds x and another module.
  lemma StrayWriter(g: Graph<Node>, p: Plan<Node>, m: Node, x: Node, u: Node, d: Node)
    requires m in g.down && x in g.down[m] && x in g.up && u in g.up[x] && u in g.down && d in g.down[u] && u != m && d != x
    requires !Writes(g, x, ATTR) && Writes(g, u, ATTR) && !Writes(g, d, ATTR)
    ensures !Separate(g, ATTR, p, {}, m)
  {
    hide Zoned, Writes;
    assert !FeedsOnly(g, ATTR, u, x);
  }

  lemma TurnsBack(g: Graph<Node>, p: Plan<Node>, m: Node, x: Node, y: Node)
    requires m in g.down && x in g.down && y in g.down && x in g.down[m] && y in g.down[x] && x in g.down[y]
    requires !Writes(g, x, ATTR) && !Writes(g, y, ATTR)
    ensures !Separate(g, ATTR, p, {}, m)
  {
    hide Quiet, Writes, WellFormed;
  }

  lemma TwoWritersLinks()
    ensures var g := TwoWriters();
      && g.modules == g.down.Keys == g.up.Keys == g.attrs.Keys && (forall m :: m in g.modules)
      && (forall d :: d in g.down[W] <==> d == P) && (forall d :: d in g.down[V] <==> d == P || d == X)
      && (forall d :: d in g.down[X] <==> d == P) && (forall d :: d in g.down[Y] <==> d == X) && (forall d :: d !in g.down[P])
      && (forall u :: u in g.up[P] <==> u == W || u == V || u == X) && (forall u :: u in g.up[X] <==> u == V || u == Y)
      && (forall u :: u !in g.up[W] && u !in g.up[V] && u !in g.up[Y])
      && (forall m :: Writes(g, m, ATTR) <==> m == W || m == V)
      && WellFormed(g)
  {
    var g := TwoWriters();
    forall m ensures m in g.modules {
      match m { case W => case V => case P => case X => case Y => }
    }
  }

  const ORDERED := Plan({P, X, Y}, map[Y := 0, X := 1, P := 2])

  // Started from W, the first graph does not meet the condition; started from V
  // it does, and what is found is closed.
  lemma OrderMatters(p: Plan<Node>)
    ensures WellFormed(TwoWriters()) && !Separate(TwoWriters(), ATTR, p, {}, W)
    ensures Separate(TwoWriters(), ATTR, ORDERED, {}, V)
  {
    hide TwoWriters, Writes, WellFormed, Separate;
    TwoWritersLinks();
    StrayWriter(TwoWriters(), p, W, P, V, X);
    SeparateFromV();
  }

  lemma ZonedFromV()
    ensures Zoned(TwoWriters(), ATTR, ORDERED)
  {
    hide TwoWriters, Writes, WellFormed;
    TwoWritersLinks();
    var g := TwoWriters();
    forall x, d | x in ORDERED.zone && d in g.down[x]
      ensures x in g.up[d] && d in ORDERED.zone && ORDERED.rank[x] < ORDERED.rank[d]
    {
      assert (x == X && d == P) || (x == Y && d == X);
    }
  }

  lemma SeparateFromV()
    ensures Separate(TwoWriters(), ATTR, ORDERED, {}, V)
  {
    hide TwoWriters, Writes, WellFormed, Zoned;
    ZonedFromV();
    TwoWritersLinks();
    assert FeedsOnly(TwoWriters(), ATTR, W, P);
  }

  lemma CycleIsOut(p: Plan<Node>)
    ensures !Separate(Cycle(), ATTR, p, {}, W)
  {
    TurnsBack(Cycle(), p, W, P, X);
  }
}
