/** A module that updates an attribute reads it: on a chain of a writer, an updater
    and a reader there is one scope component, with all three in it. */
module MetadataUpdate {
  import opened MetadataScopes
  import opened MetadataOpenScopes

  const UP := Attribute(ATTR, 4, Update)

  // W writes, V updates, P reads. W feeds V, V feeds P; X and Y are not connected.
  ghost function Chain(): Graph<Node> {
    Graph({W, V, P, X, Y},
          map[W := [V], V := [P], P := [], X := [], Y := []],
          map[W := [], V := [W], P := [V], X := [], Y := []], {W, X, Y},
          map[W := map[ATTR := WR], V := map[ATTR := UP], P := map[ATTR := RD], X := map[], Y := map[]])
  }

  // The walk of P, while V is in progress.
  lemma DownP(s: State<Node>) returns (t: State<Node>)
    requires Shows(s, {W, V}, {W, V}, {P})
    ensures RunsDown(Chain(), s, P, WR, t, true) && Shows(t, {W, V, P}, {W, V, P}, {})
  {
    hide RunsUp, RunsUpAll, RunsDown, ReadsOn, Shows;
    var g := Chain();
    Seen(s, {W, V}, {W, V}, {P});
    var v, b := ReaderJoins(g, s, P, {W, V}, {W, V}, {P});
    assert {W, V} + {P} == {W, V, P} && {P} - {P} == {} && {W, V, P} + {V} == {W, V, P};
    UpJoins(g, b, V, {W, V, P}, {W, V, P}, {});
    t := AddedTo(b, V, WR);
    AllNone(g, b, [V], WR);
    UpAllNext(g, b, [V], 0, WR, b, t);
    assert [V][..1] == [V];
    assert Climbs(g, b, P, WR, Settle(g, t, P));
    UpClimbs(g, Mark(v, P, -1), P, WR, t);
    DownReads(g, s, P, WR, v, t);
  }

  // The end of the walk of V: upstream there is W.
  lemma UpV(s: State<Node>) returns (t: State<Node>)
    requires Shows(s, {W, V, P}, {W, V, P}, {})
    ensures RunsUp(Chain(), Mark(s, V, -1), V, WR, t) && Shows(t, {W, V, P}, {W, V, P}, {})
  {
    hide RunsUp, RunsUpAll, Shows;
    var g := Chain();
    assert {W, V, P} - {V} == {W, P} && {W, P} + {V} == {W, V, P} && {W, V, P} + {V} == {W, V, P} && {W, V, P} + {W} == {W, V, P};
    Marks(s, V, {W, V, P}, {W, V, P}, {});
    var a := Mark(s, V, -1);
    Seen(a, {W, V, P}, {W, P}, {});
    Adds(a, V, WR, {W, V, P}, {W, P}, {});
    var b := AddedTo(a, V, WR);
    Seen(b, {W, V, P}, {W, P}, {});
    Marks(b, V, {W, V, P}, {W, P}, {});
    var c := Mark(b, V, 1);
    UpJoins(g, c, W, {W, V, P}, {W, V, P}, {});
    t := AddedTo(c, W, WR);
    AllNone(g, c, [W], WR);
    UpAllNext(g, c, [W], 0, WR, c, t);
    assert [W][..1] == [W];
    assert Climbs(g, c, V, WR, Settle(g, t, V));
    UpClimbs(g, a, V, WR, t);
  }

  lemma ReadsWith(g: Graph<Node>, s: State<Node>, m: Node, t: State<Node>, found: bool)
    requires s.comps != [] && m in g.down && Reads(g, m, ATTR)
    requires RunsDownAll(g, Identify(AddedTo(s, m, g.attrs[m][ATTR]), m, ATTR), g.down[m], WR, t, found)
    ensures ReadsOn(g, s, m, WR, t)
  {
    hide RunsDownAll;
  }

  // The walk of V: it joins as a reader and is walked on.
  lemma DownV(s: State<Node>) returns (t: State<Node>)
    requires Shows(s, {W}, {W}, {V, P})
    ensures RunsDown(Chain(), s, V, WR, t, true) && Shows(t, {W, V, P}, {W, V, P}, {})
  {
    hide RunsUp, RunsDown, RunsDownAll, ReadsOn, Shows;
    var g := Chain();
    assert g.down[V] == [P] && g.attrs[V][ATTR] == UP;
    Seen(s, {W}, {W}, {V, P});
    assert {W} + {V} == {W, V} && {V, P} - {V} == {P};
    Marks(s, V, {W}, {W}, {V, P});
    var a := Mark(s, V, 1);
    Seen(a, {W}, {W, V}, {V, P});
    Adds(a, V, UP, {W}, {W, V}, {V, P});
    Identifies(AddedTo(a, V, UP), V, {W, V}, {W, V}, {V, P});
    var b := Identify(AddedTo(a, V, UP), V, ATTR);
    var c := DownP(b);
    AllNone(g, b, [P], WR);
    DownAllNext(g, b, [P], 0, WR, b, false, c, true);
    assert [P][..1] == [P];
    ReadsWith(g, a, V, c, true);
    t := UpV(c);
    DownReads(g, s, V, WR, c, t);
  }

  lemma FromW(s: State<Node>) returns (t: State<Node>)
    requires s == Opened(Initial(Chain()), W)
    ensures RunsFrom(Chain(), s, W, WR, t) && Shows(t, {W, V, P}, {W, V, P}, {})
  {
    hide RunsFrom, RunsDown, RunsDownAll, Shows, AddedTo, Identify, Mark, Opened, Initial;
    var g := Chain();
    Opens(g, {W, V, P});
    assert {W, V, P} - {W} == {V, P};
    var a := Mark(Identify(AddedTo(s, W, WR), W, ATTR), W, 1);
    t := DownV(a);
    AllNone(g, a, [V], WR);
    DownAllNext(g, a, [V], 0, WR, a, false, t, true);
    assert [V][..1] == [V];
    FromWalks(g, s, W, WR, t, true);
  }

  // The discovery, starting at W, finds one valid component with all three.
  lemma OneComponent(rest: seq<(Node, Attribute)>, t: State<Node>)
    requires Discovers(Chain(), Initial(Chain()), [(W, WR)] + rest, t)
    requires forall r :: r in rest ==> r.1.name == ATTR
    ensures |t.comps| == 1 && t.comps[0].modules == {W, V, P} && t.comps[0].attr == ATTR && !t.comps[0].invalid
  {
    hide RunsFrom, Discovers;
    var g := Chain();
    var u := FromW(Opened(Initial(g), W));
    OnlyW(g, rest, u, {W, V, P}, {W, V, P});
    DiscoversOnce(g, Initial(g), [(W, WR)] + rest, t, u);
  }
}
