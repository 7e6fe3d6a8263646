/** Components that the placement puts over each other although they share a
    module, in every order in which the sort by degree may leave them. */
module MetadataOverlap {
  import opened MetadataOffsets

  const A := Component(32, 0, 0, false, false, {1, 2})
  const B := Component(1, 0, 0, false, false, {3, 4})
  const C := Component(8, 0, 0, false, false, {3, 5})
  const D := Component(1, 0, 0, false, false, {1, 4})

  function Unread(m: int): Component<int> {
    Component(1, 0, 0, false, false, {m})
  }

  // Attributes that nobody reads.
  const UNREAD := [Unread(2), Unread(2), Unread(2), Unread(2), Unread(5), Unread(5), Unread(5), Unread(3)]

  // As on a chain of modules 5, 3, 4, 1, 2 in which 5 writes C for 3, 3 writes B
  // for 4, 4 writes D for 1 and 1 writes A for 2.
  const COMPONENTS := [A, C, B, D] + UNREAD

  // ---- degrees ----

  lemma {:induction false} SharingSum<M>(c: Component<M>, s: seq<Component<M>>, t: seq<Component<M>>)
    ensures Sharing(c, s + t) == Sharing(c, s) + Sharing(c, t)
    decreases |t|
  {
    if t == [] {
      assert s + t == s;
    } else {
      var n := |t| - 1;
      assert (s + t)[..|s| + n] == s + t[..n];
      SharingSum(c, s, t[..n]);
    }
  }

  lemma SharingOne<M>(c: Component<M>, d: Component<M>)
    ensures Sharing(c, [d]) == if Share(c, d) then 1 else 0
  {
    assert [d][..0] == [];
    assert Sharing(c, [d][..0]) == 0;
  }

  lemma SharingTwo<M>(c: Component<M>, d: Component<M>, e: Component<M>)
    ensures Sharing(c, [d, e]) == (if Share(c, d) then 1 else 0) + (if Share(c, e) then 1 else 0)
  {
    SharingOne(c, d);
    SharingOne(c, e);
    SharingSum(c, [d], [e]);
    assert [d] + [e] == [d, e];
  }

  // The unread attributes count for those that hold their module.
  lemma SharingUnread(c: Component<int>)
    ensures Sharing(c, UNREAD) == (if 2 in c.modules then 4 else 0) + (if 5 in c.modules then 3 else 0) + (if 3 in c.modules then 1 else 0)
  {
    hide Sharing, Share;
    forall m: int ensures Share(c, Unread(m)) <==> m in c.modules { ShareUnread(c, m); }
    var x, y, z := Unread(2), Unread(5), Unread(3);
    SharingTwo(c, x, x);
    SharingSum(c, [x, x], [x, x]);
    SharingTwo(c, y, y);
    SharingTwo(c, y, z);
    SharingSum(c, [y, y], [y, z]);
    SharingSum(c, [x, x] + [x, x], [y, y] + [y, z]);
    assert UNREAD == ([x, x] + [x, x]) + ([y, y] + [y, z]);
  }

  lemma ShareUnread(c: Component<int>, m: int)
    ensures Share(c, Unread(m)) <==> m in c.modules
  {
    assert m in c.modules ==> m in c.modules * {m};
  }

  lemma Shares()
    ensures Share(A, D) && Share(D, A) && Share(C, B) && Share(B, C) && Share(B, D) && Share(D, B)
    ensures !Share(A, B) && !Share(B, A) && !Share(A, C) && !Share(C, A) && !Share(C, D) && !Share(D, C)
  {
    assert 1 in A.modules * D.modules && 1 in D.modules * A.modules && 3 in C.modules * B.modules && 3 in B.modules * C.modules;
    assert 4 in B.modules * D.modules && 4 in D.modules * B.modules;
  }

  lemma Degrees()
    ensures Degree(COMPONENTS, 0) == 5 && Degree(COMPONENTS, 1) == 5
    ensures Degree(COMPONENTS, 2) == 3 && Degree(COMPONENTS, 3) == 2
  {
    hide Sharing, Share;
    Shares();
    DegreeOf(0, A, [], [C, B, D]);
    DegreeOf(1, C, [A], [B, D]);
    DegreeOf(2, B, [A, C], [D]);
    DegreeOf(3, D, [A, C, B], []);
    SharingUnread(A);
    SharingUnread(B);
    SharingUnread(C);
    SharingUnread(D);
  }

  // The degree of c, which stands between s and t.
  lemma DegreeOf(j: nat, c: Component<int>, s: seq<Component<int>>, t: seq<Component<int>>)
    requires j < 4 && [A, C, B, D] == s + [c] + t && |s| == j
    ensures COMPONENTS[j] == c && Degree(COMPONENTS, j) == Few(c, s) + Few(c, t) + Sharing(c, UNREAD)
  {
    hide Sharing, Share;
    assert COMPONENTS == s + [c] + t + UNREAD;
    assert COMPONENTS[..j] == s && COMPONENTS[j + 1..] == t + UNREAD;
    SharingSum(c, t, UNREAD);
    SharingFew(c, s);
    SharingFew(c, t);
  }

  function One(b: bool): nat {
    if b then 1 else 0
  }

  ghost function Few(c: Component<int>, s: seq<Component<int>>): nat
    requires |s| <= 3
  {
    (if |s| > 0 then One(Share(c, s[0])) else 0) + (if |s| > 1 then One(Share(c, s[1])) else 0)
    + (if |s| > 2 then One(Share(c, s[2])) else 0)
  }

  lemma SharingFew(c: Component<int>, s: seq<Component<int>>)
    requires |s| <= 3
    ensures Sharing(c, s) == Few(c, s)
  {
    hide Share;
    if |s| == 1 {
      SharingOne(c, s[0]);
      assert s == [s[0]];
    } else if |s| == 2 {
      SharingTwo(c, s[0], s[1]);
      assert s == [s[0], s[1]];
    } else if |s| == 3 {
      SharingTwo(c, s[0], s[1]);
      SharingOne(c, s[2]);
      SharingSum(c, [s[0], s[1]], [s[2]]);
      assert s == [s[0], s[1]] + [s[2]];
    }
  }

  // ---- the order after the sort ----

  lemma Once<T>(s: seq<T>, i: nat, j: nat)
    requires i < j < |s| && multiset(s)[s[i]] == 1
    ensures s[i] != s[j]
  {
    assert s == s[..i] + [s[i]] + s[i + 1..];
    assert s[j] in s[i + 1..];
    assert multiset(s) == multiset(s[..i]) + multiset{s[i]} + multiset(s[i + 1..]);
  }

  // The components with two modules, as the sort sees them.
  const RANKED := [A.(degree := 5), C.(degree := 5), B.(degree := 3), D.(degree := 2)]

  lemma Counts()
    ensures var w := WithDegrees(COMPONENTS); |w| == 12 && w[..4] == RANKED && forall c :: c in w[4..] ==> |c.modules| == 1
  {
    Degrees();
    var w := WithDegrees(COMPONENTS);
    hide Degree;
    forall c | c in w[4..] ensures |c.modules| == 1 {
      var j :| 4 <= j < 12 && w[j] == c;
      assert c.modules == COMPONENTS[j].modules && COMPONENTS[j] == UNREAD[j - 4];
      UnreadSingle(j - 4);
    }
  }

  lemma UnreadSingle(i: nat)
    requires i < 8
    ensures |UNREAD[i].modules| == 1
  {
    assert exists m :: UNREAD[i].modules == {m};
  }

  lemma Pairs(c: Component<int>)
    requires c in RANKED
    ensures |c.modules| == 2
  {
  }

  // Each of the four stands in the list once, and the others have one module.
  lemma Listed(ranked: seq<Component<int>>)
    requires Ranking(COMPONENTS, ranked)
    ensures forall c :: c in RANKED ==> multiset(ranked)[c] == 1
    ensures forall j :: 0 <= j < |ranked| ==> ranked[j] in RANKED || |ranked[j].modules| == 1
  {
    hide WithDegrees, ByDegree;
    Counts();
    var w := WithDegrees(COMPONENTS);
    assert w == w[..4] + w[4..];
    assert multiset(w) == multiset(RANKED) + multiset(w[4..]);
    forall c | c in RANKED ensures multiset(ranked)[c] == 1 {
      Pairs(c);
      assert c !in w[4..] && c !in multiset(w[4..]);
      OnceRanked(c);
    }
    forall j | 0 <= j < |ranked| ensures ranked[j] in RANKED || |ranked[j].modules| == 1 {
      assert ranked[j] in multiset(ranked);
      assert ranked[j] in multiset(RANKED) ==> ranked[j] in RANKED;
      assert ranked[j] in multiset(w[4..]) ==> ranked[j] in w[4..];
    }
  }

  lemma OnceRanked(c: Component<int>)
    requires c in RANKED
    ensures multiset(RANKED)[c] == 1
  {
    assert A.modules != C.modules && A.modules != B.modules && C.modules != B.modules && D.modules != A.modules
        && D.modules != B.modules && D.modules != C.modules by { assert 2 in A.modules && 5 in C.modules && 3 in B.modules && 1 in D.modules; }
    assert multiset(RANKED) == multiset{RANKED[0], RANKED[1], RANKED[2], RANKED[3]};
  }

  // ---- the placement ----

  // Where the four stand after the sort.
  ghost predicate Standing(comps: seq<Component<int>>, a: nat, b: nat, c: nat, d: nat) {
    && a < b && c < b < d < |comps| && a != c
    && Stands(comps[a], A) && Stands(comps[b], B) && Stands(comps[c], C) && Stands(comps[d], D)
    && forall j :: 0 <= j < |comps| && j !in {a, b, c, d} ==> !comps[j].taken
  }

  ghost predicate Stands(x: Component<int>, y: Component<int>) {
    x.taken && x.size == y.size && x.modules == y.modules
  }

  lemma Before(ranked: seq<Component<int>>, x: Component<int>, y: Component<int>) returns (i: nat, j: nat)
    requires ByDegree(ranked) && x in ranked && y in ranked && x.degree > y.degree
    ensures i < j < |ranked| && ranked[i] == x && ranked[j] == y
  {
    i :| 0 <= i < |ranked| && ranked[i] == x;
    j :| 0 <= j < |ranked| && ranked[j] == y;
  }

  lemma Found(ranked: seq<Component<int>>, x: Component<int>)
    requires multiset(ranked)[x] == 1
    ensures x in ranked
  {
    assert x in multiset(ranked);
  }

  lemma OnlyThere(ranked: seq<Component<int>>, i: nat, j: nat)
    requires i < |ranked| && j < |ranked| && i != j && multiset(ranked)[ranked[i]] == 1
    ensures ranked[i] != ranked[j]
  {
    if i < j {
      Once(ranked, i, j);
    } else if ranked[i] == ranked[j] {
      Once(ranked, j, i);
    }
  }

  // The degrees put A and C before B, and B before D.
  lemma Positions(ranked: seq<Component<int>>) returns (a: nat, b: nat, c: nat, d: nat)
    requires Ranking(COMPONENTS, ranked)
    ensures a < b && c < b < d < |ranked| && a != c
    ensures ranked[a] == RANKED[0] && ranked[b] == RANKED[2] && ranked[c] == RANKED[1] && ranked[d] == RANKED[3]
    ensures forall j :: 0 <= j < |ranked| && j !in {a, b, c, d} ==> |ranked[j].modules| == 1
  {
    hide WithDegrees;
    Listed(ranked);
    forall i | 0 <= i < 4 ensures RANKED[i] in ranked {
      assert RANKED[i] in RANKED;
      Found(ranked, RANKED[i]);
    }
    assert RANKED[0] != RANKED[1] by { assert 2 in A.modules && 2 !in C.modules; }
    a, b := Before(ranked, RANKED[0], RANKED[2]);
    var e;
    c, e := Before(ranked, RANKED[1], RANKED[2]);
    hide ByDegree;
    assert e == b by { if e != b { OnlyThere(ranked, b, e); } }
    e, d := Before(ranked, RANKED[2], RANKED[3]);
    assert e == b by { if e != b { OnlyThere(ranked, b, e); } }
    forall j | 0 <= j < |ranked| && j !in {a, b, c, d} ensures |ranked[j].modules| == 1 {
      if ranked[j] in RANKED {
        OnlyThere(ranked, a, j);
        OnlyThere(ranked, b, j);
        OnlyThere(ranked, c, j);
        OnlyThere(ranked, d, j);
      }
    }
  }

  lemma Plain(ranked: seq<Component<int>>, j: nat)
    requires Ranking(COMPONENTS, ranked) && j < |ranked|
    ensures Sized(ranked[j]) && !ranked[j].taken && !ranked[j].invalid
  {
    hide ByDegree, Degree;
    var w := WithDegrees(COMPONENTS);
    assert ranked[j] in multiset(ranked);
    assert ranked[j] in w;
    var i :| 0 <= i < |w| && w[i] == ranked[j];
    assert COMPONENTS[i] in COMPONENTS;
    Small(COMPONENTS[i]);
  }

  lemma Small(c: Component<int>)
    requires c in COMPONENTS
    ensures Sized(c) && !c.taken && !c.invalid
  {
  }

  // Components with two modules are placed, the others left alone.
  lemma Dealt(ranked: seq<Component<int>>, comps: seq<Component<int>>, j: nat)
    requires Ranking(COMPONENTS, ranked) && Placement(ranked, comps) && j < |ranked|
    ensures comps[j].size == ranked[j].size && comps[j].modules == ranked[j].modules
    ensures |ranked[j].modules| == 1 ==> !comps[j].taken
    ensures |ranked[j].modules| == 2 ==> comps[j].taken && ScannedAt(comps, j)
  {
    hide ScannedAt, WellPlacedAt, Transitive, OneSize, NoOverlap, Fits, Ranking;
    Plain(ranked, j);
    assert Assigned(ranked[j], comps[j]);
  }

  lemma AllStand(ranked: seq<Component<int>>, comps: seq<Component<int>>) returns (a: nat, b: nat, c: nat, d: nat)
    requires Ranking(COMPONENTS, ranked) && Placement(ranked, comps)
    ensures Standing(comps, a, b, c, d)
    ensures ScannedAt(comps, a) && ScannedAt(comps, b) && ScannedAt(comps, c) && ScannedAt(comps, d)
  {
    a, b, c, d := Positions(ranked);
    assert |comps| == |ranked|;
    hide ScannedAt, Placement, Ranking;
    forall i | 0 <= i < 4 ensures |RANKED[i].modules| == 2 { Pairs(RANKED[i]); }
    Dealt(ranked, comps, a);
    Dealt(ranked, comps, b);
    Dealt(ranked, comps, c);
    Dealt(ranked, comps, d);
    forall j | 0 <= j < |comps| && j !in {a, b, c, d} ensures !comps[j].taken {
      Dealt(ranked, comps, j);
    }
  }

  // Nobody is in the way of A and C.
  lemma AloneAtZero(comps: seq<Component<int>>, j: nat)
    requires ScannedAt(comps, j) && forall i :: 0 <= i < j ==> !comps[i].taken || !Share(comps[j], comps[i])
    ensures comps[j].offset == 0
  {
    assert Earlier(comps, j) == {};
  }

  lemma StandShare(x: Component<int>, y: Component<int>, u: Component<int>, v: Component<int>)
    requires x.modules == u.modules && y.modules == v.modules
    ensures Share(x, y) <==> Share(u, v)
  {
  }

  lemma FirstTwo(comps: seq<Component<int>>, a: nat, b: nat, c: nat, d: nat)
    requires Standing(comps, a, b, c, d) && ScannedAt(comps, a) && ScannedAt(comps, c)
    ensures comps[a].offset == 0 && comps[c].offset == 0
  {
    hide ScannedAt, Share;
    Shares();
    StandShare(comps[a], comps[c], A, C);
    StandShare(comps[c], comps[a], C, A);
    AloneAtZero(comps, a);
    AloneAtZero(comps, c);
  }

  // B comes behind C.
  lemma ThenB(comps: seq<Component<int>>, a: nat, b: nat, c: nat, d: nat)
    requires Standing(comps, a, b, c, d) && ScannedAt(comps, b) && comps[c].offset == 0
    ensures comps[b].offset == 8
  {
    hide ComputeNextOffset, ScanTo, Share;
    Shares();
    StandShare(comps[b], comps[a], B, A);
    StandShare(comps[b], comps[c], B, C);
    assert Earlier(comps, b) == {c};
    NextAtSizeOne(8);
    ScanOver(comps, {c}, 1, 0, comps[b].offset, c);
    assert {c} - {c} == {};
    NoMoreScan(comps, 1, 8, comps[b].offset);
  }

  // D is moved behind A, and then back behind B, into A.
  lemma ThenD(comps: seq<Component<int>>, a: nat, b: nat, c: nat, d: nat)
    requires Standing(comps, a, b, c, d) && ScannedAt(comps, d) && comps[a].offset == 0 && comps[b].offset == 8
    ensures comps[d].offset == 9
  {
    hide ComputeNextOffset, ScanTo, Share;
    Shares();
    StandShare(comps[d], comps[a], D, A);
    StandShare(comps[d], comps[b], D, B);
    StandShare(comps[d], comps[c], D, C);
    assert Earlier(comps, d) == {a, b};
    NextAtSizeOne(32);
    NextAtSizeOne(9);
    ScanOver(comps, {a, b}, 1, 0, comps[d].offset, a);
    assert {a, b} - {a} == {b} && {b} - {b} == {};
    ScanOver(comps, {b}, 1, 32, comps[d].offset, b);
    NoMoreScan(comps, 1, 9, comps[d].offset);
  }

  // In whatever order the sort leaves components of equal degree, D ends at
  // offset 9, inside A, with which it shares module 1: B starts later and ends
  // earlier than A.
  lemma SortedOverlaps(ranked: seq<Component<int>>, comps: seq<Component<int>>) returns (a: nat, d: nat)
    requires Ranking(COMPONENTS, ranked) && Placement(ranked, comps)
    ensures a < d < |comps| && Stands(comps[a], A) && Stands(comps[d], D) && Share(comps[a], comps[d])
    ensures comps[a].offset == 0 && comps[d].offset == 9
    ensures !Apart(comps[a].offset, comps[a].size, comps[d].offset, comps[d].size)
  {
    hide Placement, ScannedAt, Ranking, Share;
    var b, c;
    a, b, c, d := AllStand(ranked, comps);
    FirstTwo(comps, a, b, c, d);
    ThenB(comps, a, b, c, d);
    ThenD(comps, a, b, c, d);
    Shares();
    StandShare(comps[a], comps[d], A, D);
  }

  lemma NoMoreScan(comps: seq<Component<int>>, size: int, offset: int, result: int)
    requires 1 <= size <= 32 && ScanTo(comps, {}, size, offset, result)
    ensures result == offset
  {
  }

  lemma NextAtSizeOne(arg: int)
    requires 0 <= arg < 128
    ensures ComputeNextOffset(arg, 1) == arg
  {
    NextOffset(arg, 1);
    assert arg % 1 == 0;
  }

  // A scan whose first neighbour is the only one to start there passes it.
  lemma ScanOver<M>(comps: seq<Component<M>>, ns: set<nat>, size: int, offset: int, result: int, j: nat)
    requires 1 <= size <= 32 && (forall k :: k in ns ==> k < |comps|) && ScanTo(comps, ns, size, offset, result)
    requires j in ns && 0 <= comps[j].offset < offset + size
    requires forall k :: k in ns && k != j ==> comps[j].offset < comps[k].offset
    ensures ScanTo(comps, ns - {j}, size, ComputeNextOffset(comps[j].offset + comps[j].size, size), result)
  {
    var i: nat :| First(comps, ns, i) && ScanFrom(comps, ns, size, offset, result, i);
    assert i == j;
  }
}
