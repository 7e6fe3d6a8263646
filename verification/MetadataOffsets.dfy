/** Greedy placement of metadata scope components in the 128 metadata bytes of a
    packet, with the source's int8 offsets. */
module MetadataOffsets {
  import opened ExtendedPriorityQueue

  const TOTAL_SIZE: int := 128
  const NO_WRITE: int := -1
  const NO_READ: int := -2
  const NO_SPACE: int := -3

  // ---- machine arithmetic --------------------------------------------------

  // Conversion to int8_t.
  function ToInt8(x: int): (r: int)
    ensures -128 <= r <= 127
  {
    (x + 128) % 256 - 128
  }

  const U64: int := 0x1_0000_0000_0000_0000
  const U32: int := 0x1_0000_0000

  // The remainder of C: it has the sign of the dividend.
  function CRem(a: int, b: int): int
    requires b > 0
  {
    if a >= 0 then a % b else -((-a) % b)
  }

  // align_ceil on uint64_t.
  function AlignCeil(v: int, align: int): int
    requires align > 0
  {
    var w := (v + align - 1) % U64;
    w - w % align
  }

  // align_ceil_pow2 on uint64_t: smear the bits of v - 1 down, then add one.
  function AlignCeilPow2(v: bv64): bv64 {
    var v := v - 1;
    var v := v | (v >> 1);
    var v := v | (v >> 2);
    var v := v | (v >> 4);
    var v := v | (v >> 8);
    var v := v | (v >> 16);
    var v := v | (v >> 32);
    v + 1
  }

  // The least power of two that holds size bytes.
  function RoundedSize(size: int): (r: int)
    requires 1 <= size <= 32
    ensures size <= r < 2 * size && r in {1, 2, 4, 8, 16, 32}
  {
    if size <= 1 then 1 else if size <= 2 then 2 else if size <= 4 then 4
    else if size <= 8 then 8 else if size <= 16 then 16 else 32
  }

  // The bit trick is that rounding.
  lemma AlignCeilPow2IsRounded(v: bv64)
    requires 1 <= v <= 32
    ensures AlignCeilPow2(v) as int == RoundedSize(v as int)
  {
    if v <= 1 {} else if v <= 2 {} else if v <= 4 {} else if v <= 8 {} else if v <= 16 {} else {}
  }

  // ComputeNextOffset; the argument is converted to int8_t on entry.
  function ComputeNextOffset(arg: int, size: int): int
    requires 1 <= size <= 32
  {
    var curr := ToInt8(arg);
    var rounded := RoundedSize(size);
    var aligned := if CRem(curr, rounded) != 0 then ToInt8(AlignCeil(curr % U64, rounded)) else curr;
    var overflow := (aligned % U32 + size) % U32;
    if overflow > TOTAL_SIZE then NO_SPACE else aligned
  }

  // Aligned to its rounded size and inside the 128 bytes.
  predicate Fits(offset: int, size: int)
    requires 1 <= size <= 32
  {
    0 <= offset && offset + size <= TOTAL_SIZE && offset % RoundedSize(size) == 0
  }

  predicate SmallPow2(r: int) {
    r == 1 || r == 2 || r == 4 || r == 8 || r == 16 || r == 32
  }

  lemma MultipleRem(k: int, r: int)
    requires SmallPow2(r)
    ensures (k * r) % r == 0
  {
    if r == 1 {
      assert (k * 1) % 1 == 0;
    } else if r == 2 {
      assert (k * 2) % 2 == 0;
    } else if r == 4 {
      assert (k * 4) % 4 == 0;
    } else if r == 8 {
      assert (k * 8) % 8 == 0;
    } else if r == 16 {
      assert (k * 16) % 16 == 0;
    } else {
      assert (k * 32) % 32 == 0;
    }
  }

  lemma MulMonotone(p: int, q: int, r: int)
    requires r > 0 && p <= q
    ensures p * r <= q * r
  {
    assert 0 <= (q - p) * r;
  }

  lemma MultiplesApart(p: int, q: int, r: int)
    requires r > 0 && p * r < q * r
    ensures p * r + r <= q * r
  {
    if q <= p { MulMonotone(q, p, r); }
    MulMonotone(p + 1, q, r);
  }

  lemma AlignCeilIsNextMultiple(v: int, r: int)
    requires SmallPow2(r) && 0 <= v <= 127
    ensures var a := AlignCeil(v, r);
      v <= a < v + r && a % r == 0 && forall o :: v <= o && o % r == 0 ==> a <= o
  {
    var w := v + r - 1;
    var a := AlignCeil(v, r);
    assert a == (w / r) * r;
    MultipleRem(w / r, r);
    forall o | v <= o && o % r == 0 ensures a <= o {
      if o < a {
        assert o == (o / r) * r;
        MultiplesApart(o / r, w / r, r);
      }
    }
  }

  lemma TotalIsAligned(r: int)
    requires SmallPow2(r)
    ensures CRem(-128, r) == 0
  {
    if r == 1 {} else if r == 2 {} else if r == 4 {} else if r == 8 {} else if r == 16 {} else {}
  }

  // The next offset is the first aligned one at or after the argument, or no
  // space; int8 wraparound at 128 reads as no space.
  lemma NextOffset(arg: int, size: int)
    requires 1 <= size <= 32 && 0 <= arg <= TOTAL_SIZE
    ensures var r := ComputeNextOffset(arg, size);
      && (r == NO_SPACE || (Fits(r, size) && arg <= r < arg + RoundedSize(size)))
      && (r == NO_SPACE ==> forall o :: arg <= o && o % RoundedSize(size) == 0 ==> o + size > TOTAL_SIZE)
  {
    var r := RoundedSize(size);
    if arg == TOTAL_SIZE {
      TotalIsAligned(r);
      assert ComputeNextOffset(arg, size) == NO_SPACE;
    } else {
      AlignCeilIsNextMultiple(arg, r);
      NextOffsetInRange(arg, size);
    }
  }

  lemma Int8Wraps(x: int)
    requires 0 <= x < 256
    ensures ToInt8(x) == if x <= 127 then x else x - 256
  {
  }

  // The unsigned sum exceeds the total also when the int8 offset is negative.
  lemma OverflowDetected(offset: int, size: int)
    requires -128 <= offset <= 127 && 1 <= size <= 32
    ensures (offset % U32 + size) % U32 > TOTAL_SIZE <==> offset < -size || offset + size > TOTAL_SIZE
  {
    assert offset >= 0 ==> offset % U32 == offset;
    assert offset < 0 ==> offset % U32 == offset + U32;
  }

  lemma NextOffsetInRange(arg: int, size: int)
    requires 1 <= size <= 32 && 0 <= arg < TOTAL_SIZE
    ensures var a := AlignCeil(arg, RoundedSize(size));
            ComputeNextOffset(arg, size) == if a + size > TOTAL_SIZE then NO_SPACE else a
  {
    var r := RoundedSize(size);
    AlignCeilIsNextMultiple(arg, r);
    var a := AlignCeil(arg, r);
    hide AlignCeil, ToInt8;
    Int8Wraps(arg);
    Int8Wraps(a);
    assert arg % U64 == arg;
    OverflowDetected(arg, size);
    OverflowDetected(if a <= 127 then a else a - 256, size);
  }

  // ---- placement -----------------------------------------------------------

  datatype Component<M> = Component(size: int, offset: int, degree: nat, taken: bool, invalid: bool, modules: set<M>)

  predicate Sized<M>(c: Component<M>) {
    1 <= c.size <= 32
  }

  // Components that share a module must not overlap in the packet.
  predicate Share<M>(a: Component<M>, b: Component<M>) {
    a.modules * b.modules != {}
  }

  predicate Apart(o: int, s: int, p: int, t: int) {
    o + s <= p || p + t <= o
  }

  // The offset is a sentinel or a proper place.
  predicate Placed<M>(c: Component<M>)
    requires Sized(c)
  {
    c.offset in {NO_READ, NO_WRITE, NO_SPACE} || Fits(c.offset, c.size)
  }

  // A neighbour that starts later does not end earlier.
  ghost predicate EndsGrow<M>(comps: seq<Component<M>>, ns: set<nat>)
    requires forall j :: j in ns ==> j < |comps|
  {
    forall j, k :: j in ns && k in ns && 0 <= comps[j].offset <= comps[k].offset ==>
      comps[j].offset + comps[j].size <= comps[k].offset + comps[k].size
  }

  // When no space is left after a component, that component lies high.
  lemma NoSpaceIsHigh(offset: int, used: int, size: int)
    requires 1 <= size <= 32 && 1 <= used <= 32 && 0 <= offset && offset + used <= TOTAL_SIZE
    requires ComputeNextOffset(offset + used, size) == NO_SPACE
    ensures offset >= 34
  {
    NextOffset(offset + used, size);
    var r := RoundedSize(size);
    assert 96 % r == 0 by { if r == 1 {} else if r == 2 {} else if r == 4 {} else if r == 8 {} else if r == 16 {} else {} }
  }

  // The offset is the first one, or the next behind one of the neighbours; that
  // includes no space when nothing fits behind it.
  ghost predicate Snug<M>(comps: seq<Component<M>>, ns: set<nat>, size: int, offset: int)
    requires 1 <= size <= 32 && forall j :: j in ns ==> j < |comps|
  {
    offset == 0 || exists j :: j in ns && comps[j].offset >= 0 && offset == ComputeNextOffset(comps[j].offset + comps[j].size, size)
  }

  // Neighbour j is one of those that start first.
  ghost predicate First<M>(comps: seq<Component<M>>, ns: set<nat>, j: nat)
    requires forall k :: k in ns ==> k < |comps|
  {
    j in ns && forall k :: k in ns ==> comps[j].offset <= comps[k].offset
  }

  // The scan over the neighbours ns, by offset, takes the offset to result. Only
  // the order of neighbours with the same offset is left open.
  ghost predicate ScanTo<M>(comps: seq<Component<M>>, ns: set<nat>, size: int, offset: int, result: int)
    requires 1 <= size <= 32 && forall k :: k in ns ==> k < |comps|
    decreases |ns|
  {
    if ns == {} then result == offset
    else exists j: nat :: First(comps, ns, j) && ScanFrom(comps, ns, size, offset, result, j)
  }

  ghost predicate ScanFrom<M>(comps: seq<Component<M>>, ns: set<nat>, size: int, offset: int, result: int, j: nat)
    requires 1 <= size <= 32 && j in ns && forall k :: k in ns ==> k < |comps|
    decreases |ns|, 0
  {
    Smaller(ns, j);
    if comps[j].offset in {NO_READ, NO_WRITE, NO_SPACE} then ScanTo(comps, ns - {j}, size, offset, result)
    else if offset + size > comps[j].offset then
      ScanTo(comps, ns - {j}, size, ComputeNextOffset(comps[j].offset + comps[j].size, size), result)
    else result == offset
  }

  lemma Smaller(ns: set<nat>, j: nat)
    requires j in ns
    ensures |ns - {j}| < |ns|
  {
  }

  // What placing one component achieves against its assigned neighbours ns.
  ghost predicate WellPlaced<M>(comps: seq<Component<M>>, ns: set<nat>, size: int, offset: int)
    requires 1 <= size <= 32 && forall j :: j in ns ==> j < |comps|
  {
    && (offset == NO_SPACE || Fits(offset, size)) && Snug(comps, ns, size, offset)
    && (EndsGrow(comps, ns) && offset != NO_SPACE ==>
          forall j :: j in ns && comps[j].offset >= 0 ==> Apart(comps[j].offset, comps[j].size, offset, size))
  }

  // Progress of a scan over all: ns are left, the others start no later.
  ghost predicate ScanOk<M>(comps: seq<Component<M>>, all: set<nat>, ns: set<nat>, size: int, offset: int)
    requires 1 <= size <= 32 && forall j :: j in all ==> j < |comps|
  {
    && ns <= all && (forall j :: j in all ==> Sized(comps[j]) && Placed(comps[j]))
    && (forall j, k :: j in all - ns && k in ns ==> comps[j].offset <= comps[k].offset)
    && (offset == NO_SPACE || Fits(offset, size)) && Snug(comps, all, size, offset)
    && (offset == NO_SPACE ==> forall k :: k in ns ==> comps[k].offset >= 34)
    && (EndsGrow(comps, all) && offset != NO_SPACE ==>
          forall j :: j in all - ns && comps[j].offset >= 0 ==> comps[j].offset + comps[j].size <= offset)
  }

  lemma SnugBehind<M>(comps: seq<Component<M>>, ns: set<nat>, size: int, j: nat)
    requires 1 <= size <= 32 && forall k :: k in ns ==> k < |comps|
    ensures j in ns && comps[j].offset >= 0 ==> Snug(comps, ns, size, ComputeNextOffset(comps[j].offset + comps[j].size, size))
  {
  }

  // One neighbour is passed, and the offset moves behind it where it must.
  lemma ScanStep<M>(comps: seq<Component<M>>, all: set<nat>, ns: set<nat>, size: int, offset: int, j: nat)
    requires 1 <= size <= 32 && forall k :: k in all ==> k < |comps|
    requires ScanOk(comps, all, ns, size, offset) && First(comps, ns, j)
    ensures comps[j].offset < 0 ==> ScanOk(comps, all, ns - {j}, size, offset)
    ensures comps[j].offset >= 0 && offset + size > comps[j].offset ==>
              ScanOk(comps, all, ns - {j}, size, ComputeNextOffset(comps[j].offset + comps[j].size, size))
  {
    hide ComputeNextOffset, Snug;
    var c := comps[j];
    SnugBehind(comps, all, size, j);
    if c.offset >= 0 && offset + size > c.offset {
      NextOffset(c.offset + c.size, size);
      if ComputeNextOffset(c.offset + c.size, size) == NO_SPACE {
        NoSpaceIsHigh(c.offset, c.size, size);
      }
    }
  }

  // Once there is no space behind a neighbour the scan ends without a place.
  lemma NoSpaceStays<M>(comps: seq<Component<M>>, all: set<nat>, ns: set<nat>, size: int, result: int)
    requires 1 <= size <= 32 && forall k :: k in all ==> k < |comps|
    requires ScanOk(comps, all, ns, size, NO_SPACE) && ScanTo(comps, ns, size, NO_SPACE, result)
    ensures result == NO_SPACE
  {
    hide Snug, ComputeNextOffset;
    if ns != {} {
      var j: nat :| First(comps, ns, j) && ScanFrom(comps, ns, size, NO_SPACE, result, j);
      assert comps[j].offset >= 34;
    }
  }

  // Every scan ends well.
  lemma {:induction false} ScanPlaces<M>(comps: seq<Component<M>>, all: set<nat>, ns: set<nat>, size: int, offset: int, result: int)
    requires 1 <= size <= 32 && forall k :: k in all ==> k < |comps|
    requires ScanOk(comps, all, ns, size, offset) && ScanTo(comps, ns, size, offset, result)
    ensures WellPlaced(comps, all, size, result)
    decreases |ns|
  {
    hide Snug, ComputeNextOffset;
    if ns != {} {
      var j: nat :| First(comps, ns, j) && ScanFrom(comps, ns, size, offset, result, j);
      Smaller(ns, j);
      ScanStep(comps, all, ns, size, offset, j);
      if comps[j].offset in {NO_READ, NO_WRITE, NO_SPACE} {
        ScanPlaces(comps, all, ns - {j}, size, offset, result);
      } else if offset + size > comps[j].offset {
        ScanPlaces(comps, all, ns - {j}, size, ComputeNextOffset(comps[j].offset + comps[j].size, size), result);
      }
    }
  }

  // A scan from the start.
  lemma ScanWellPlaced<M>(comps: seq<Component<M>>, ns: set<nat>, size: int, result: int)
    requires 1 <= size <= 32 && forall j :: j in ns ==> j < |comps| && Sized(comps[j]) && Placed(comps[j])
    requires ScanTo(comps, ns, size, 0, result)
    ensures WellPlaced(comps, ns, size, result)
  {
    assert 0 % RoundedSize(size) == 0;
    ScanPlaces(comps, ns, ns, size, 0, result);
  }

  lemma ScanIfPlaced<M>(comps: seq<Component<M>>, ns: set<nat>, size: int, result: int)
    requires 1 <= size <= 32 && (forall j :: j in ns ==> j < |comps|) && ScanTo(comps, ns, size, 0, result)
    ensures (forall j :: j in ns ==> Sized(comps[j]) && Placed(comps[j])) ==> WellPlaced(comps, ns, size, result)
  {
    if forall j :: j in ns ==> Sized(comps[j]) && Placed(comps[j]) { ScanWellPlaced(comps, ns, size, result); }
  }

  // ---- the pipeline --------------------------------------------------------

  ghost function Offsets<M>(comps: seq<Component<M>>): map<nat, int> {
    map j: nat | j < |comps| :: comps[j].offset
  }

  // Whatever the rest of the scan gives, the whole scan gives.
  ghost predicate OnTheWay<M>(comps: seq<Component<M>>, all: set<nat>, ns: set<nat>, size: int, offset: int)
    requires 1 <= size <= 32 && ns <= all && forall k :: k in all ==> k < |comps|
  {
    forall r :: ScanTo(comps, ns, size, offset, r) ==> ScanTo(comps, all, size, 0, r)
  }

  lemma EmptyHolds(key: map<nat, int>)
    ensures Holds([], {}, key) && IsHeap<nat>([])
  {
  }

  lemma NothingLeft(left: set<nat>, key: map<nat, int>)
    requires Holds([], left, key)
    ensures left == {}
  {
    var none: seq<Entry<nat>> := [];
    assert forall a :: a in left ==> multiset(none)[Entry(key[a], a)] == 1;
  }

  lemma ScanEnds<M>(comps: seq<Component<M>>, all: set<nat>, size: int, offset: int)
    requires 1 <= size <= 32 && (forall k :: k in all ==> k < |comps|) && OnTheWay(comps, all, {}, size, offset)
    ensures ScanTo(comps, all, size, 0, offset)
  {
    assert ScanTo(comps, {}, size, offset, offset);
  }

  lemma WayStart<M>(comps: seq<Component<M>>, all: set<nat>, size: int)
    requires 1 <= size <= 32 && (forall k :: k in all ==> k < |comps|)
    ensures OnTheWay(comps, all, all, size, 0)
  {
  }

  lemma WayStep<M>(comps: seq<Component<M>>, all: set<nat>, ns: set<nat>, size: int, offset: int, j: nat)
    requires 1 <= size <= 32 && ns <= all && forall k :: k in all ==> k < |comps|
    requires OnTheWay(comps, all, ns, size, offset) && First(comps, ns, j)
    ensures if comps[j].offset in {NO_READ, NO_WRITE, NO_SPACE} then OnTheWay(comps, all, ns - {j}, size, offset)
            else if offset + size > comps[j].offset then
              OnTheWay(comps, all, ns - {j}, size, ComputeNextOffset(comps[j].offset + comps[j].size, size))
            else ScanTo(comps, all, size, 0, offset)
  {
    hide ComputeNextOffset;
    forall r | ScanFrom(comps, ns, size, offset, r, j) ensures ScanTo(comps, ns, size, offset, r) {}
  }

  // ---- degrees -------------------------------------------------------------

  // How many of these components share a module with c.
  ghost function Sharing<M>(c: Component<M>, s: seq<Component<M>>): nat {
    if s == [] then 0 else Sharing(c, s[..|s| - 1]) + (if Share(c, s[|s| - 1]) then 1 else 0)
  }

  ghost function Degree<M>(comps: seq<Component<M>>, j: nat): nat
    requires j < |comps|
  {
    Sharing(comps[j], comps[..j]) + Sharing(comps[j], comps[j + 1..])
  }

  ghost function WithDegrees<M>(comps: seq<Component<M>>): seq<Component<M>> {
    seq(|comps|, j requires 0 <= j < |comps| => comps[j].(degree := Degree(comps, j)))
  }

  // The degree of component k when the pairs of the first i components are
  // counted, and those of the i-th with the components before the j-th.
  ghost function Counted<M>(comps: seq<Component<M>>, i: nat, j: nat, k: nat): nat
    requires i < j <= |comps| && k < |comps|
  {
    if k < i then Degree(comps, k)
    else if k == i then Sharing(comps[i], comps[..i]) + Sharing(comps[i], comps[i + 1..j])
    else Sharing(comps[k], comps[..if k < j then i + 1 else i])
  }

  ghost predicate CountedUpTo<M>(was: seq<Component<M>>, comps: seq<Component<M>>, i: nat, j: nat)
    requires i < j <= |was|
  {
    |comps| == |was| && forall k :: 0 <= k < |was| ==> comps[k] == was[k].(degree := Counted(was, i, j, k))
  }

  lemma SharingNext<M>(c: Component<M>, s: seq<Component<M>>, i: nat, j: nat)
    requires i <= j < |s|
    ensures Sharing(c, s[i..j + 1]) == Sharing(c, s[i..j]) + (if Share(c, s[j]) then 1 else 0)
  {
    var t := s[i..j + 1];
    assert t[..|t| - 1] == s[i..j] && t[|t| - 1] == s[j];
  }

  // One pair is looked at.
  lemma PairCounted<M>(was: seq<Component<M>>, i: nat, j: nat)
    requires i < j < |was|
    ensures var one := if Share(was[i], was[j]) then 1 else 0;
      forall k :: 0 <= k < |was| ==> Counted(was, i, j + 1, k) == Counted(was, i, j, k) + (if k == i || k == j then one else 0)
  {
    SharingNext(was[i], was, i + 1, j);
    SharingNext(was[j], was, 0, i);
    assert was[0..i] == was[..i] && was[0..i + 1] == was[..i + 1];
    assert Share(was[j], was[i]) == Share(was[i], was[j]);
  }

  // A row is complete.
  lemma RowCounted<M>(was: seq<Component<M>>, i: nat)
    requires i + 1 < |was|
    ensures forall k :: 0 <= k < |was| ==> Counted(was, i + 1, i + 2, k) == Counted(was, i, |was|, k)
  {
    assert was[i + 1..|was|] == was[i + 1..] && was[i + 2..i + 2] == [];
  }

  lemma FirstCounted<M>(was: seq<Component<M>>)
    requires was != [] && forall k :: 0 <= k < |was| ==> was[k].degree == 0
    ensures CountedUpTo(was, was, 0, 1)
  {
    forall k | 0 <= k < |was| ensures Counted(was, 0, 1, k) == 0 {
      assert was[..0] == [] && was[1..1] == [];
    }
  }

  lemma LastCounted<M>(was: seq<Component<M>>, comps: seq<Component<M>>)
    requires was != [] && CountedUpTo(was, comps, |was| - 1, |was|)
    ensures comps == WithDegrees(was)
  {
    var n := |was|;
    assert was[n..n] == was[n..] == [];
  }

  lemma NoDegrees<M>(was: seq<Component<M>>)
    requires was == []
    ensures WithDegrees(was) == was
  {
  }

  // Degrees do not increase.
  ghost predicate ByDegree<M>(comps: seq<Component<M>>) {
    forall i, j :: 0 <= i < j < |comps| ==> comps[i].degree >= comps[j].degree
  }

  lemma SortedEmpty<M>(s: seq<Component<M>>)
    requires s == []
    ensures ByDegree(s)
  {
  }

  // From the k-th on, all degrees are lower than that of c.
  ghost predicate Behind<M>(s: seq<Component<M>>, k: nat, c: Component<M>) {
    forall j :: k <= j < |s| ==> s[j].degree < c.degree
  }

  lemma InsertKeeps<M>(s: seq<Component<M>>, k: nat, c: Component<M>)
    requires ByDegree(s) && k <= |s| && Behind(s, k, c) && (k > 0 ==> s[k - 1].degree >= c.degree)
    ensures var t := s[..k] + [c] + s[k..]; ByDegree(t) && multiset(t) == multiset(s) + multiset{c}
  {
    hide ByDegree, Behind;
    var t := s[..k] + [c] + s[k..];
    assert s == s[..k] + s[k..];
    InsertSorted(s, k, c, t);
  }

  lemma InsertSorted<M>(s: seq<Component<M>>, k: nat, c: Component<M>, t: seq<Component<M>>)
    requires ByDegree(s) && k <= |s| && Behind(s, k, c) && (k > 0 ==> s[k - 1].degree >= c.degree)
    requires t == s[..k] + [c] + s[k..]
    ensures ByDegree(t)
  {
    forall i, j | 0 <= i < j < |t| ensures t[i].degree >= t[j].degree {
      InsertedAt(s, k, c, t, i);
      InsertedAt(s, k, c, t, j);
    }
  }

  lemma InsertedAt<M>(s: seq<Component<M>>, k: nat, c: Component<M>, t: seq<Component<M>>, i: nat)
    requires k <= |s| && t == s[..k] + [c] + s[k..] && i < |t|
    ensures t[i] == if i < k then s[i] else if i == k then c else s[i - 1]
  {
  }

  // The components with their degrees, in an order the sort may leave.
  ghost predicate Ranking<M>(was: seq<Component<M>>, ranked: seq<Component<M>>) {
    multiset(ranked) == multiset(WithDegrees(was)) && ByDegree(ranked)
  }

  lemma RankedFresh<M>(was: seq<Component<M>>, ranked: seq<Component<M>>)
    requires Ranking(was, ranked) && forall j :: 0 <= j < |was| ==> Sized(was[j]) && !was[j].taken && was[j].offset == 0
    ensures forall j :: 0 <= j < |ranked| ==> Sized(ranked[j]) && !ranked[j].taken && ranked[j].offset == 0
  {
    hide ByDegree;
    forall j | 0 <= j < |ranked| ensures Sized(ranked[j]) && !ranked[j].taken && ranked[j].offset == 0 {
      assert ranked[j] in multiset(ranked);
      assert ranked[j] in WithDegrees(was);
    }
  }

  // What AssignOffsets makes of the components.
  ghost predicate Placement<M>(was: seq<Component<M>>, comps: seq<Component<M>>) {
    && |comps| == |was| && (forall j :: 0 <= j < |was| ==> Sized(was[j]) && Assigned(was[j], comps[j]))
    && (forall j :: 0 <= j < |comps| && Competes(comps[j]) ==> ScannedAt(comps, j) && WellPlacedAt(comps, j))
    && (Transitive(was) || OneSize(was) ==> NoOverlap(comps, |comps|))
  }

  class Pipeline<M(==)> {
    var comps: seq<Component<M>>

    // How many other components each one shares a module with.
    method ComputeScopeDegrees()
      requires forall k :: 0 <= k < |comps| ==> comps[k].degree == 0
      modifies this
      ensures comps == WithDegrees(old(comps))
    {
      hide Counted, WithDegrees;
      ghost var was := comps;
      if comps == [] {
        assert WithDegrees(was) == [] by { NoDegrees(was); }
        return;
      }
      FirstCounted(was);
      for i := 0 to |comps|
        invariant |comps| == |was| && if i < |was| then CountedUpTo(was, comps, i, i + 1) else CountedUpTo(was, comps, i - 1, i)
      {
        for j := i + 1 to |comps|
          invariant |comps| == |was| && CountedUpTo(was, comps, i, j)
        {
          PairCounted(was, i, j);
          if Share(comps[i], comps[j]) {
            var a, b := comps[i], comps[j];
            comps := comps[i := a.(degree := a.degree + 1)][j := b.(degree := b.degree + 1)];
          }
        }
        if i + 1 < |was| { RowCounted(was, i); }
      }
      LastCounted(was, comps);
    }

    // The sort by degree, highest first; the order of equals is left open.
    method SortByDegree()
      modifies this
      ensures multiset(comps) == multiset(old(comps)) && ByDegree(comps)
    {
      hide ByDegree;
      var todo := comps;
      comps := [];
      assert ByDegree(comps) by { SortedEmpty(comps); }
      for i := 0 to |todo|
        invariant ByDegree(comps) && multiset(comps) == multiset(todo[..i])
      {
        var k := |comps|;
        while k > 0 && comps[k - 1].degree < todo[i].degree
          invariant 0 <= k <= |comps| && Behind(comps, k, todo[i])
        {
          k := k - 1;
        }
        InsertKeeps(comps, k, todo[i]);
        assert todo[..i + 1] == todo[..i] + [todo[i]];
        comps := comps[..k] + [todo[i]] + comps[k..];
      }
      assert todo[..|todo|] == todo;
    }

    // The end of ComputeMetadataOffsets.
    method ComputeOffsets() returns (ghost ranked: seq<Component<M>>)
      requires Fresh() && forall k :: 0 <= k < |comps| ==> comps[k].degree == 0
      modifies this
      ensures Ranking(old(comps), ranked) && Placement(ranked, comps)
    {
      hide Transitive, OneSize, NoOverlap, ScannedAt, WellPlacedAt, ByDegree, Assigned;
      ghost var was := comps;
      ComputeScopeDegrees();
      SortByDegree();
      ranked := comps;
      RankedFresh(was, ranked);
      AssignOffsets();
    }

    constructor (components: seq<Component<M>>)
      ensures comps == components
    {
      comps := components;
    }

    // Indices of the assigned components that share a module with the i-th.
    ghost function Neighbours(i: nat): (ns: set<nat>)
      requires i < |comps|
      reads this
      ensures forall j :: j in ns ==> j < |comps|
    {
      set j: nat | j < |comps| && j != i && Share(comps[i], comps[j]) && comps[j].taken
    }

    // The neighbours of component i in a queue, lowest offset first.
    method CollectNeighbours(i: nat) returns (queue: seq<Entry<nat>>)
      requires i < |comps|
      ensures IsHeap(queue) && Holds(queue, Neighbours(i), Offsets(comps))
    {
      hide Holds, IsHeap, Share;
      queue := [];
      EmptyHolds(Offsets(comps));
      assert NeighboursBelow(i, 0) == {};
      for j := 0 to |comps|
        invariant IsHeap(queue) && Holds(queue, NeighboursBelow(i, j), Offsets(comps))
      {
        if i != j && Share(comps[i], comps[j]) && comps[j].taken {
          var was := queue;
          queue := Push(queue, Entry(comps[j].offset, j));
          HoldsPush(was, queue, NeighboursBelow(i, j), Offsets(comps), j);
          assert NeighboursBelow(i, j) + {j} == NeighboursBelow(i, j + 1);
        } else {
          assert NeighboursBelow(i, j) == NeighboursBelow(i, j + 1);
        }
      }
      assert NeighboursBelow(i, |comps|) == Neighbours(i);
    }

    ghost function NeighboursBelow(i: nat, n: nat): set<nat>
      requires i < |comps| && n <= |comps|
      reads this
    {
      set j: nat | j < n && j != i && Share(comps[i], comps[j]) && comps[j].taken
    }

    // The inner loop of AssignOffsets for component i.
    method PlaceOne(i: nat) returns (offset: int)
      requires i < |comps| && Sized(comps[i])
      ensures ScanTo(comps, Neighbours(i), comps[i].size, 0, offset)
      ensures (forall j :: j in Neighbours(i) ==> Sized(comps[j]) && Placed(comps[j])) ==>
                WellPlaced(comps, Neighbours(i), comps[i].size, offset)
    {
      hide ComputeNextOffset, ScanTo, Holds, IsHeap, WellPlaced, Placed;
      var size := comps[i].size;
      var queue := CollectNeighbours(i);
      offset := 0;
      ghost var left := Neighbours(i);
      WayStart(comps, left, size);
      while queue != []
        invariant IsHeap(queue) && left <= Neighbours(i) && Holds(queue, left, Offsets(comps))
        invariant OnTheWay(comps, Neighbours(i), left, size, offset)
        decreases |queue|
      {
        var j := queue[0].val;
        var rest := Pop(queue);
        HoldsPop(queue, rest, left, Offsets(comps));
        var comp2 := comps[j];
        assert First(comps, left, j);
        WayStep(comps, Neighbours(i), left, size, offset, j);
        if comp2.offset == NO_READ || comp2.offset == NO_WRITE || comp2.offset == NO_SPACE {
        } else if offset + size > comp2.offset {
          offset := ComputeNextOffset(comp2.offset + comp2.size, size);
        } else {
          ScanIfPlaced(comps, Neighbours(i), size, offset);
          return;
        }
        queue, left := rest, left - {j};
      }
      NothingLeft(left, Offsets(comps));
      ScanEnds(comps, Neighbours(i), size, offset);
      ScanIfPlaced(comps, Neighbours(i), size, offset);
    }

    // Freshly discovered components: nothing assigned yet.
    ghost predicate Fresh()
      reads this
    {
      forall j :: 0 <= j < |comps| ==> Sized(comps[j]) && !comps[j].taken && comps[j].offset == 0
    }

    // AssignOffsets, before the arrays are filled.
    method AssignOffsets()
      requires Fresh()
      modifies this
      ensures |comps| == |old(comps)|
      ensures forall j :: 0 <= j < |comps| ==> Assigned(old(comps)[j], comps[j])
      ensures forall j :: 0 <= j < |comps| && Competes(comps[j]) ==> ScannedAt(comps, j)
      ensures forall j :: 0 <= j < |comps| && Competes(comps[j]) ==> WellPlacedAt(comps, j)
      ensures Transitive(old(comps)) || OneSize(old(comps)) ==> NoOverlap(comps, |comps|)
    {
      hide AssignedUpTo, Transitive, OneSize, NoOverlap, ScannedAt, WellPlacedAt;
      ghost var was := comps;
      AssignStart(was);
      for i := 0 to |comps|
        invariant |comps| == |was| && AssignedUpTo(was, comps, i)
      {
        UnassignedYet(was, comps, i);
        if comps[i].invalid {
          var c := comps[i].(offset := NO_READ, taken := true);
          SkipStep(was, comps, i, c);
          comps := comps[i := c];
        } else if comps[i].taken || |comps[i].modules| == 1 {
          SkipStep(was, comps, i, comps[i]);
          assert comps[i := comps[i]] == comps;
        } else {
          AssignOne(was, i);
        }
      }
      AssignEnd(was, comps);
    }

    method AssignOne(ghost was: seq<Component<M>>, i: nat)
      requires i < |comps| == |was| && Competes(comps[i]) && AssignedUpTo(was, comps, i)
      requires forall j :: 0 <= j < |was| ==> Sized(was[j]) && !was[j].taken
      modifies this
      ensures |comps| == |was| && AssignedUpTo(was, comps, i + 1)
    {
      hide ScanTo, ScannedAt, WellPlaced, WellPlacedAt;
      forall j | 0 <= j < |comps| ensures Sized(comps[j]) { assert SameShape(was[j], comps[j]); }
      assert Neighbours(i) == Earlier(comps, i);
      var offset := PlaceOne(i);
      var c := comps[i].(offset := offset, taken := true);
      EarlierPlaced(was, comps, i);
      ScanFits(comps, Earlier(comps, i), c.size, offset);
      PlacedAt(comps, i, c);
      forall j | 0 <= j < i && Competes(comps[j]) ensures ScannedAt(comps[i := c], j) && WellPlacedAt(comps[i := c], j) {
        PlacedStays(comps, i, c, j);
      }
      comps := comps[i := c];
    }
  }

  // The components before the j-th that share a module with it and are placed.
  ghost function Earlier<M>(comps: seq<Component<M>>, j: nat): (ns: set<nat>)
    requires j < |comps|
    ensures forall i :: i in ns ==> i < |comps|
  {
    set i: nat | i < j && Share(comps[j], comps[i]) && comps[i].taken
  }

  // The offset of component j is where the scan over the earlier ones ends.
  ghost predicate ScannedAt<M>(comps: seq<Component<M>>, j: nat) {
    j < |comps| && Sized(comps[j]) && ScanTo(comps, Earlier(comps, j), comps[j].size, 0, comps[j].offset)
  }

  ghost predicate WellPlacedAt<M>(comps: seq<Component<M>>, j: nat) {
    j < |comps| && Sized(comps[j]) && WellPlaced(comps, Earlier(comps, j), comps[j].size, comps[j].offset)
  }

  // Only the neighbours themselves matter for a scan.
  lemma {:induction false} ScanSame<M>(comps: seq<Component<M>>, comps': seq<Component<M>>, ns: set<nat>, size: int, offset: int,
                                       result: int)
    requires 1 <= size <= 32 && forall k :: k in ns ==> k < |comps| && k < |comps'| && comps'[k] == comps[k]
    requires ScanTo(comps, ns, size, offset, result)
    ensures ScanTo(comps', ns, size, offset, result)
    decreases |ns|
  {
    hide ComputeNextOffset;
    if ns != {} {
      var j: nat :| First(comps, ns, j) && ScanFrom(comps, ns, size, offset, result, j);
      Smaller(ns, j);
      if comps[j].offset in {NO_READ, NO_WRITE, NO_SPACE} {
        ScanSame(comps, comps', ns - {j}, size, offset, result);
      } else if offset + size > comps[j].offset {
        ScanSame(comps, comps', ns - {j}, size, ComputeNextOffset(comps[j].offset + comps[j].size, size), result);
      }
      assert First(comps', ns, j) && ScanFrom(comps', ns, size, offset, result, j);
    }
  }

  lemma PlacedSame<M>(comps: seq<Component<M>>, comps': seq<Component<M>>, ns: set<nat>, size: int, offset: int)
    requires 1 <= size <= 32 && forall k :: k in ns ==> k < |comps| && k < |comps'| && comps'[k] == comps[k]
    requires WellPlaced(comps, ns, size, offset)
    ensures WellPlaced(comps', ns, size, offset)
  {
    hide ComputeNextOffset, Fits;
    assert EndsGrow(comps', ns) ==> EndsGrow(comps, ns);
    if offset != 0 {
      var j :| j in ns && comps[j].offset >= 0 && offset == ComputeNextOffset(comps[j].offset + comps[j].size, size);
      assert comps'[j] == comps[j];
    }
  }

  // Component i gets its place; the earlier ones do not notice.
  lemma PlacedAt<M>(comps: seq<Component<M>>, i: nat, c: Component<M>)
    requires i < |comps| && Sized(comps[i]) && c.size == comps[i].size && c.modules == comps[i].modules
    requires ScanTo(comps, Earlier(comps, i), c.size, 0, c.offset) && WellPlaced(comps, Earlier(comps, i), c.size, c.offset)
    ensures ScannedAt(comps[i := c], i) && WellPlacedAt(comps[i := c], i)
  {
    hide ScanTo, WellPlaced;
    assert Earlier(comps[i := c], i) == Earlier(comps, i);
    ScanSame(comps, comps[i := c], Earlier(comps, i), c.size, 0, c.offset);
    PlacedSame(comps, comps[i := c], Earlier(comps, i), c.size, c.offset);
  }

  lemma PlacedStays<M>(comps: seq<Component<M>>, i: nat, c: Component<M>, j: nat)
    requires j < i < |comps| && ScannedAt(comps, j) && WellPlacedAt(comps, j)
    ensures ScannedAt(comps[i := c], j) && WellPlacedAt(comps[i := c], j)
  {
    hide ScanTo, WellPlaced, Share;
    assert Earlier(comps[i := c], j) == Earlier(comps, j);
    ScanSame(comps, comps[i := c], Earlier(comps, j), comps[j].size, 0, comps[j].offset);
    PlacedSame(comps, comps[i := c], Earlier(comps, j), comps[j].size, comps[j].offset);
  }

  // The first i components are dealt with, the others untouched.
  ghost predicate AssignedUpTo<M>(was: seq<Component<M>>, comps: seq<Component<M>>, i: nat)
    requires i <= |comps| == |was|
  {
    && (forall j :: 0 <= j < i ==> Sized(was[j]) && Assigned(was[j], comps[j]))
    && (forall j :: i <= j < |comps| ==> comps[j] == was[j])
    && (forall j :: 0 <= j < |comps| ==> SameShape(was[j], comps[j]))
    && (forall j :: 0 <= j < i && Competes(comps[j]) ==> ScannedAt(comps, j) && WellPlacedAt(comps, j))
  }

  lemma EarlierPlaced<M>(was: seq<Component<M>>, comps: seq<Component<M>>, i: nat)
    requires i < |comps| == |was| && AssignedUpTo(was, comps, i) && forall j :: 0 <= j < |was| ==> !was[j].taken
    ensures forall j :: j in Earlier(comps, i) ==> Sized(comps[j]) && Placed(comps[j])
  {
    hide Fits, Share, ScannedAt, WellPlacedAt;
    forall j | j in Earlier(comps, i) ensures Sized(comps[j]) && Placed(comps[j]) { assert Assigned(was[j], comps[j]); }
  }

  lemma ScanFits<M>(comps: seq<Component<M>>, ns: set<nat>, size: int, offset: int)
    requires 1 <= size <= 32 && (forall j :: j in ns ==> j < |comps|) && WellPlaced(comps, ns, size, offset)
    ensures offset == NO_SPACE || Fits(offset, size)
  {
  }

  lemma AssignStart<M>(was: seq<Component<M>>)
    requires forall j :: 0 <= j < |was| ==> Sized(was[j])
    ensures AssignedUpTo(was, was, 0)
  {
  }

  lemma AssignEnd<M>(was: seq<Component<M>>, comps: seq<Component<M>>)
    requires |comps| == |was| && AssignedUpTo(was, comps, |was|) && forall j :: 0 <= j < |was| ==> !was[j].taken
    ensures forall j :: 0 <= j < |was| ==> Sized(was[j]) && Assigned(was[j], comps[j])
    ensures forall j :: 0 <= j < |comps| && Competes(comps[j]) ==> ScannedAt(comps, j)
    ensures forall j :: 0 <= j < |comps| && Competes(comps[j]) ==> WellPlacedAt(comps, j)
    ensures Transitive(was) || OneSize(was) ==> NoOverlap(comps, |comps|)
  {
    hide ScannedAt, WellPlacedAt, Fits;
    if Transitive(was) { TransitiveApart(was, comps, |was|); }
    if OneSize(was) { SameSizeApart(was, comps, |was|); }
  }

  lemma UnassignedYet<M>(was: seq<Component<M>>, comps: seq<Component<M>>, i: nat)
    requires i < |comps| == |was| && AssignedUpTo(was, comps, i)
    ensures comps[i] == was[i]
  {
  }

  // A component that is not placed competes with no other.
  lemma SkipStep<M>(was: seq<Component<M>>, comps: seq<Component<M>>, i: nat, c: Component<M>)
    requires i < |comps| == |was| && AssignedUpTo(was, comps, i)
    requires Sized(was[i]) && Assigned(was[i], c) && !Competes(c)
    ensures AssignedUpTo(was, comps[i := c], i + 1)
  {
    hide Fits, ScannedAt, WellPlacedAt;
    forall j | 0 <= j < i && Competes(comps[j]) ensures ScannedAt(comps[i := c], j) && WellPlacedAt(comps[i := c], j) {
      PlacedStays(comps, i, c, j);
    }
  }

  // Everything but the placement is as before.
  ghost predicate SameShape<M>(a: Component<M>, b: Component<M>) {
    b.size == a.size && b.degree == a.degree && b.invalid == a.invalid && b.modules == a.modules && Sized(a)
  }

  // What AssignOffsets does with one component: an invalid one reads garbage, a
  // component of one module is left alone, any other gets a proper place or no
  // space.
  ghost predicate Assigned<M>(a: Component<M>, b: Component<M>)
    requires Sized(a)
  {
    && SameShape(a, b)
    && if a.invalid then b.taken && b.offset == NO_READ
       else if |a.modules| == 1 then b == a
       else b.taken && (b.offset == NO_SPACE || Fits(b.offset, b.size))
  }

  // A component that takes part in the placement.
  predicate Competes<M>(c: Component<M>) {
    !c.invalid && |c.modules| != 1
  }

  // Sharing a module is transitive among the components that are placed.
  ghost predicate Transitive<M>(comps: seq<Component<M>>) {
    forall i, j, k :: 0 <= i < |comps| && 0 <= j < |comps| && 0 <= k < |comps| && i != k
                      && Competes(comps[i]) && Competes(comps[j]) && Competes(comps[k])
                      && Share(comps[i], comps[j]) && Share(comps[j], comps[k])
                      ==> Share(comps[i], comps[k])
  }

  // All components that are placed have the same size.
  ghost predicate OneSize<M>(comps: seq<Component<M>>) {
    forall i, j :: 0 <= i < |comps| && 0 <= j < |comps| && Competes(comps[i]) && Competes(comps[j]) ==>
      comps[i].size == comps[j].size
  }

  // Of the first n components, any two that share a module have disjoint bytes.
  ghost predicate NoOverlap<M>(comps: seq<Component<M>>, n: nat)
    requires n <= |comps|
  {
    forall i, j :: 0 <= i < j < n && Competes(comps[i]) && Competes(comps[j]) && Share(comps[i], comps[j])
                   && comps[i].offset >= 0 && comps[j].offset >= 0
                   ==> Apart(comps[i].offset, comps[i].size, comps[j].offset, comps[j].size)
  }

  // Under transitivity the earlier neighbours of a component share modules with
  // each other, so they are apart, their ends grow, and the scan keeps clear.
  lemma {:induction false} TransitiveApart<M>(was: seq<Component<M>>, comps: seq<Component<M>>, n: nat)
    requires |was| == |comps| && n <= |comps| && Transitive(was) && AssignedUpTo(was, comps, |was|)
    requires forall j :: 0 <= j < |was| ==> !was[j].taken
    ensures NoOverlap(comps, n)
  {
    hide Transitive, AssignedUpTo;
    if n > 0 {
      TransitiveApart(was, comps, n - 1);
      if Competes(comps[n - 1]) {
        EarlierGrow(was, comps, n - 1);
        ApartFromEarlier(was, comps, n - 1);
      }
    }
  }

  lemma ApartFromEarlier<M>(was: seq<Component<M>>, comps: seq<Component<M>>, i: nat)
    requires |was| == |comps| && i < |comps| && AssignedUpTo(was, comps, |was|) && Competes(comps[i])
    requires EndsGrow(comps, Earlier(comps, i))
    ensures forall j :: 0 <= j < i && Competes(comps[j]) && Share(comps[j], comps[i]) && comps[i].offset >= 0 && comps[j].offset >= 0
                        ==> Apart(comps[j].offset, comps[j].size, comps[i].offset, comps[i].size)
  {
    hide Fits, ScannedAt, Snug, EndsGrow;
    assert WellPlacedAt(comps, i);
    forall j | 0 <= j < i && Competes(comps[j]) && Share(comps[j], comps[i]) && comps[i].offset >= 0 && comps[j].offset >= 0
      ensures Apart(comps[j].offset, comps[j].size, comps[i].offset, comps[i].size)
    {
      assert Assigned(was[j], comps[j]);
      assert Share(comps[i], comps[j]);
      assert j in Earlier(comps, i);
    }
  }

  lemma EarlierGrow<M>(was: seq<Component<M>>, comps: seq<Component<M>>, i: nat)
    requires |was| == |comps| && i < |comps| && Transitive(was) && AssignedUpTo(was, comps, |was|) && NoOverlap(comps, i)
    requires Competes(comps[i]) && forall j :: 0 <= j < |was| ==> !was[j].taken
    ensures EndsGrow(comps, Earlier(comps, i))
  {
    hide Fits, ScannedAt, WellPlacedAt;
    var ns := Earlier(comps, i);
    forall j, k | j in ns && k in ns && 0 <= comps[j].offset <= comps[k].offset
      ensures comps[j].offset + comps[j].size <= comps[k].offset + comps[k].size
    {
      if j != k {
        assert Assigned(was[j], comps[j]) && Assigned(was[k], comps[k]) && SameShape(was[i], comps[i]);
        assert Share(was[j], was[i]) && Share(was[i], was[k]);
        assert Share(comps[j], comps[k]) && Share(comps[k], comps[j]);
        assert j < k || k < j;
      }
    }
  }

  // Components of one size never overlap: the ends grow with the offsets.
  lemma {:induction false} SameSizeApart<M>(was: seq<Component<M>>, comps: seq<Component<M>>, n: nat)
    requires |was| == |comps| && n <= |comps| && OneSize(was) && AssignedUpTo(was, comps, |was|)
    requires forall j :: 0 <= j < |was| ==> !was[j].taken
    ensures NoOverlap(comps, n)
  {
    hide OneSize, AssignedUpTo;
    if n > 0 {
      SameSizeApart(was, comps, n - 1);
      if Competes(comps[n - 1]) {
        SameSizeGrow(was, comps, n - 1);
        ApartFromEarlier(was, comps, n - 1);
      }
    }
  }

  lemma SameSizeGrow<M>(was: seq<Component<M>>, comps: seq<Component<M>>, i: nat)
    requires |was| == |comps| && i < |comps| && OneSize(was) && AssignedUpTo(was, comps, |was|)
    requires forall j :: 0 <= j < |was| ==> !was[j].taken
    ensures EndsGrow(comps, Earlier(comps, i))
  {
    hide Fits, ScannedAt, WellPlacedAt, Share;
    forall j, k | j in Earlier(comps, i) && k in Earlier(comps, i) && 0 <= comps[j].offset <= comps[k].offset
      ensures comps[j].size == comps[k].size
    {
      assert Assigned(was[j], comps[j]) && Assigned(was[k], comps[k]);
    }
  }
}
