/** The binary min-heap behind every queue of the switch: weighted-fair children
    ordered by pass, sleeping classes ordered by wakeup time, pending batches
    ordered by gate priority. A queue is the vector the heap lives in. */
module ExtendedPriorityQueue {

  datatype Entry<T> = Entry(key: int, val: T)

  function Parent(i: nat): (p: nat)
    requires i > 0
    ensures p < i
  {
    (i - 1) / 2
  }

  ghost predicate OrderedAt<T>(q: seq<Entry<T>>, i: nat)
    requires 0 < i < |q|
  {
    q[Parent(i)].key <= q[i].key
  }

  ghost predicate IsHeap<T>(q: seq<Entry<T>>) {
    forall i {:trigger OrderedAt(q, i)} :: 0 < i < |q| ==> OrderedAt(q, i)
  }

  // The front of the vector is a minimum of the whole queue.
  lemma {:induction false} TopIsMinimum<T>(q: seq<Entry<T>>, i: nat)
    requires IsHeap(q) && i < |q|
    ensures q[0].key <= q[i].key
    decreases i
  {
    if i > 0 {
      assert OrderedAt(q, i);
      TopIsMinimum(q, Parent(i));
    }
  }

  lemma TopIsMinimumOf<T>(q: seq<Entry<T>>, e: Entry<T>)
    requires IsHeap(q) && e in q
    ensures q[0].key <= e.key
  {
    var i :| 0 <= i < |q| && q[i] == e;
    TopIsMinimum(q, i);
  }

  // Heap order everywhere except between node and its children; the children
  // of node are still no smaller than the parent of node.
  ghost predicate HoleAt<T>(q: seq<Entry<T>>, node: nat) {
    && (forall i {:trigger OrderedAt(q, i)} :: 0 < i < |q| && Parent(i) != node ==> OrderedAt(q, i))
    && (forall i {:trigger Parent(i)} :: 0 < i < |q| && Parent(i) == node && 0 < node < |q| ==>
          q[Parent(node)].key <= q[i].key)
  }

  lemma SwapKeepsBag<T>(q: seq<T>, i: nat, j: nat)
    requires i < |q| && j < |q|
    ensures multiset(q[i := q[j]][j := q[i]]) == multiset(q)
  {
  }

  // After the front entry's key grew, sift it down until heap order is restored.
  method DecreaseKeyTop<T>(q: seq<Entry<T>>) returns (v: seq<Entry<T>>)
    requires HoleAt(q, 0)
    ensures IsHeap(v)
    ensures multiset(v) == multiset(q) && |v| == |q|
  {
    v := q;
    var node := 0;
    while true
      invariant |v| == |q|
      invariant HoleAt(v, node)
      invariant multiset(v) == multiset(q)
      decreases |q| - node
    {
      var left := 2 * node + 1;
      var right := 2 * node + 2;
      if left >= |v| {
        break;
      }
      assert Parent(left) == node && Parent(right) == node;
      var largerChild := if right >= |v| || v[left].key < v[right].key then left else right;
      if v[largerChild].key >= v[node].key {
        forall i | 0 < i < |v| && Parent(i) == node ensures OrderedAt(v, i) {
          assert i == left || i == right;
        }
        break;
      }
      SiftStep(v, node, largerChild);
      SwapKeepsBag(v, node, largerChild);
      v := v[node := v[largerChild]][largerChild := v[node]];
      node := largerChild;
    }
  }

  lemma SiftStep<T>(v: seq<Entry<T>>, node: nat, child: nat)
    requires HoleAt(v, node) && 0 < child < |v| && Parent(child) == node
    requires v[child].key < v[node].key
    requires forall i {:trigger Parent(i)} :: 0 < i < |v| && Parent(i) == node ==> v[child].key <= v[i].key
    ensures HoleAt(v[node := v[child]][child := v[node]], child)
  {
    var w := v[node := v[child]][child := v[node]];
    forall i | 0 < i < |w| && Parent(i) != child ensures OrderedAt(w, i) {
      if Parent(i) == node {
      } else if i == node {
      } else {
        assert OrderedAt(v, i);
      }
    }
    forall i | 0 < i < |w| && Parent(i) == child ensures w[Parent(child)].key <= w[i].key {
      assert OrderedAt(v, i);
    }
  }

  // std::priority_queue::push. Any binary-heap push meets this contract.
  method Push<T>(q: seq<Entry<T>>, e: Entry<T>) returns (v: seq<Entry<T>>)
    requires IsHeap(q)
    ensures IsHeap(v)
    ensures multiset(v) == multiset(q) + multiset{e} && |v| == |q| + 1
  {
    v := q + [e];
    var node := |q|;
    forall i | 0 < i < |v| && i != node ensures OrderedAt(v, i) {
      assert OrderedAt(q, i);
    }
    while node > 0 && v[node].key < v[Parent(node)].key
      invariant 0 <= node < |v| == |q| + 1
      invariant multiset(v) == multiset(q) + multiset{e} && Rising(v, node)
    {
      var p := Parent(node);
      RiseStep(v, node);
      SwapKeepsBag(v, node, p);
      v := v[node := v[p]][p := v[node]];
      node := p;
    }
    if node > 0 { assert OrderedAt(v, node); }
  }

  // Heap order everywhere except above node; the children of node are no smaller
  // than its parent.
  ghost predicate Rising<T>(v: seq<Entry<T>>, node: nat) {
    && (forall i {:trigger OrderedAt(v, i)} :: 0 < i < |v| && i != node ==> OrderedAt(v, i))
    && (forall i {:trigger Parent(i)} :: 0 < i < |v| && 0 < node < |v| && Parent(i) == node ==>
          v[Parent(node)].key <= v[i].key)
  }

  lemma RiseStep<T>(v: seq<Entry<T>>, node: nat)
    requires 0 < node < |v| && Rising(v, node) && v[node].key < v[Parent(node)].key
    ensures var p := Parent(node); Rising(v[node := v[p]][p := v[node]], p)
  {
    var p := Parent(node);
    var w := v[node := v[p]][p := v[node]];
    forall i | 0 < i < |w| && i != p ensures OrderedAt(w, i) {
      if i != node { assert OrderedAt(v, i); }
    }
    forall i | 0 < i < |w| && p > 0 && Parent(i) == p ensures w[Parent(p)].key <= w[i].key {
      assert OrderedAt(v, p);
      if i != node { assert OrderedAt(v, i); }
    }
  }

  // std::priority_queue::pop.
  method Pop<T>(q: seq<Entry<T>>) returns (v: seq<Entry<T>>)
    requires IsHeap(q) && |q| > 0
    ensures IsHeap(v)
    ensures multiset(v) == multiset(q) - multiset{q[0]} && |v| == |q| - 1
  {
    var n := |q| - 1;
    assert q == q[..n] + [q[n]];
    if n == 0 {
      v := [];
    } else {
      var w := q[..n][0 := q[n]];
      forall i | 0 < i < |w| && Parent(i) != 0 ensures OrderedAt(w, i) {
        assert OrderedAt(q, i);
      }
      assert q[..n] == [q[0]] + q[1..n];
      assert w == [q[n]] + q[1..n];
      v := DecreaseKeyTop(w);
    }
  }

  function Without<T>(q: seq<T>, i: nat): (r: seq<T>)
    requires i < |q|
  {
    q[..i] + q[i + 1..]
  }

  lemma WithoutBag<T>(q: seq<T>, i: nat)
    requires i < |q|
    ensures multiset(Without(q, i)) == multiset(q) - multiset{q[i]}
    ensures |Without(q, i)| == |q| - 1
  {
    assert q == q[..i] + [q[i]] + q[i + 1..];
  }

  // std::make_heap. Any heap over the same entries meets this contract.
  method MakeHeap<T>(q: seq<Entry<T>>) returns (v: seq<Entry<T>>)
    ensures IsHeap(v)
    ensures multiset(v) == multiset(q) && |v| == |q|
  {
    v := [];
    for i := 0 to |q|
      invariant IsHeap(v) && |v| == i
      invariant multiset(v) == multiset(q[..i])
    {
      v := Push(v, q[i]);
      assert q[..i + 1] == q[..i] + [q[i]];
    }
    assert q[..|q|] == q;
  }

  // Deletes the first entry, in vector order, that satisfies the predicate;
  // pos is where it stood, or |q| when there is none.
  method DeleteSingleElement<T>(q: seq<Entry<T>>, doomed: Entry<T> -> bool)
      returns (v: seq<Entry<T>>, pos: nat)
    requires IsHeap(q)
    ensures IsHeap(v) && pos <= |q|
    ensures forall j :: 0 <= j < pos ==> !doomed(q[j])
    ensures pos == |q| ==> v == q
    ensures pos < |q| ==> doomed(q[pos]) && multiset(v) == multiset(q) - multiset{q[pos]}
  {
    for i := 0 to |q|
      invariant forall j :: 0 <= j < i ==> !doomed(q[j])
    {
      if doomed(q[i]) {
        WithoutBag(q, i);
        v := MakeHeap(Without(q, i));
        return v, i;
      }
    }
    v, pos := q, |q|;
  }

  // The queue holds each element of s once, under its key.
  ghost predicate Holds<T(!new)>(q: seq<Entry<T>>, s: set<T>, key: map<T, int>) {
    && s <= key.Keys && (forall e :: e in q ==> e.val in s && e.key == key[e.val])
    && forall a :: a in s ==> multiset(q)[Entry(key[a], a)] == 1
  }

  lemma HoldsPush<T(!new)>(q: seq<Entry<T>>, r: seq<Entry<T>>, s: set<T>, key: map<T, int>, a: T)
    requires Holds(q, s, key) && a in key && a !in s && multiset(r) == multiset(q) + multiset{Entry(key[a], a)}
    ensures Holds(r, s + {a}, key)
  {
    forall e | e in r ensures e.val in s + {a} && e.key == key[e.val] {
      assert e in multiset(r);
      assert e in multiset(q) || e == Entry(key[a], a);
      assert e in multiset(q) ==> e in q;
    }
    assert multiset(q)[Entry(key[a], a)] == 0 by {
      assert Entry(key[a], a) in q <==> Entry(key[a], a) in multiset(q);
    }
  }

  lemma HoldsPop<T(!new)>(q: seq<Entry<T>>, r: seq<Entry<T>>, s: set<T>, key: map<T, int>)
    requires Holds(q, s, key) && q != [] && IsHeap(q) && multiset(r) == multiset(q) - multiset{q[0]}
    ensures q[0].val in s && Holds(r, s - {q[0].val}, key)
    ensures forall a :: a in s ==> key[q[0].val] <= key[a]
  {
    assert q[0] in q;
    forall e | e in r ensures e.val in s - {q[0].val} && e.key == key[e.val] {
      assert e in multiset(r);
      assert e in multiset(q);
      assert e in q;
    }
    forall a | a in s ensures key[q[0].val] <= key[a] {
      assert Entry(key[a], a) in multiset(q);
      TopIsMinimumOf(q, Entry(key[a], a));
    }
  }
}
