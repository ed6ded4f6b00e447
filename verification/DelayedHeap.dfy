/** The retry heap: container/heap's Push and Pop over the (time, id) order. */
module DelayedHeap {
  import opened Bytes
  import opened Messages

  function Parent(k: nat): nat {
    if k == 0 then 0 else (k - 1) / 2
  }

  /** The element at k does not come before the one at p. */
  ghost predicate Under(h: seq<Message>, p: nat, k: nat) {
    p < |h| && k < |h| && NotAfter(h[p], h[k])
  }

  /** No child comes before its parent. */
  ghost predicate IsHeap(h: seq<Message>) {
    forall k {:trigger Parent(k)} :: 1 <= k < |h| ==> Under(h, Parent(k), k)
  }

  function Swap(h: seq<Message>, i: nat, j: nat): (r: seq<Message>)
    requires i < |h| && j < |h|
    ensures |r| == |h| && r[i] == h[j] && r[j] == h[i]
    ensures forall k :: 0 <= k < |h| && k != i && k != j ==> r[k] == h[k]
    ensures multiset(r) == multiset(h)
  {
    h[i := h[j]][j := h[i]]
  }

  /** The heap order holds except between position j and its parent. */
  ghost predicate HeapExceptUp(h: seq<Message>, j: nat) {
    (forall k {:trigger Parent(k)} :: 1 <= k < |h| && k != j ==> Under(h, Parent(k), k)) &&
    (j > 0 ==> forall k {:trigger Parent(k)} :: 1 <= k < |h| && Parent(k) == j ==> Under(h, Parent(j), k))
  }

  lemma UpStep(h: seq<Message>, i: nat, j: nat)
    requires 0 < j < |h| && i == Parent(j) && HeapExceptUp(h, j) && Before(h[j], h[i])
    ensures HeapExceptUp(Swap(h, i, j), i)
  {
    hide Before;
    var r := Swap(h, i, j);
    BeforeAsymmetric(h[j], h[i]);
    forall k {:trigger Parent(k)} | 1 <= k < |r| && k != i ensures Under(r, Parent(k), k) {
      if k != j && Parent(k) == i {
        NotAfterTransitive(h[j], h[i], h[k]);
      }
    }
    if i > 0 {
      forall k {:trigger Parent(k)} | 1 <= k < |r| && Parent(k) == i ensures Under(r, Parent(i), k) {
        assert Under(h, Parent(i), i);
        if k != j {
          NotAfterTransitive(h[Parent(i)], h[i], h[k]);
        }
      }
    }
  }

  /** heap.Push: append and sift up. */
  method Push(h: seq<Message>, m: Message) returns (r: seq<Message>)
    requires IsHeap(h)
    ensures IsHeap(r) && multiset(r) == multiset(h) + multiset{m}
  {
    hide Before;
    r := h + [m];
    var j: nat := |h|;
    assert forall k {:trigger Parent(k)} :: 1 <= k < |h| ==> Under(h, Parent(k), k) && Under(r, Parent(k), k);
    while j > 0 && Before(r[j], r[Parent(j)])
      invariant j < |r| && HeapExceptUp(r, j) && multiset(r) == multiset(h) + multiset{m}
    {
      var i := Parent(j);
      UpStep(r, i, j);
      r := Swap(r, i, j);
      j := i;
    }
  }

  /** The heap order holds except between position i and its children. */
  ghost predicate HeapExceptDown(h: seq<Message>, i: nat) {
    (forall k {:trigger Parent(k)} :: 1 <= k < |h| && Parent(k) != i ==> Under(h, Parent(k), k)) &&
    (i > 0 ==> forall k {:trigger Parent(k)} :: 1 <= k < |h| && Parent(k) == i ==> Under(h, Parent(i), k))
  }

  lemma DownStep(h: seq<Message>, i: nat, j: nat)
    requires j < |h| && (j == 2 * i + 1 || j == 2 * i + 2) && HeapExceptDown(h, i) && Before(h[j], h[i])
    requires forall k {:trigger Parent(k)} :: 1 <= k < |h| && Parent(k) == i ==> Under(h, j, k)
    ensures HeapExceptDown(Swap(h, i, j), j)
  {
    hide Before;
    var r := Swap(h, i, j);
    BeforeAsymmetric(h[j], h[i]);
    assert Parent(j) == i;
    forall k {:trigger Parent(k)} | 1 <= k < |r| && Parent(k) != j ensures Under(r, Parent(k), k) {
      if Parent(k) == i {
        assert k == 2 * i + 1 || k == 2 * i + 2;
        assert Under(h, j, k);
      } else {
        assert Under(h, Parent(k), k);
      }
    }
    forall k {:trigger Parent(k)} | 1 <= k < |r| && Parent(k) == j ensures Under(r, Parent(j), k) {
      assert Under(h, j, k);
    }
  }

  method Down(h: seq<Message>) returns (r: seq<Message>)
    requires HeapExceptDown(h, 0)
    ensures IsHeap(r) && multiset(r) == multiset(h) && |r| == |h|
  {
    hide Before;
    r := h;
    var i: nat := 0;
    while 2 * i + 1 < |r|
      invariant |r| == |h| && HeapExceptDown(r, i) && multiset(r) == multiset(h)
    {
      var j := 2 * i + 1;
      BeforeAsymmetric(r[j], r[j]);
      if j + 1 < |r| {
        BeforeAsymmetric(r[j + 1], r[j]);
        BeforeAsymmetric(r[j + 1], r[j + 1]);
        if Before(r[j + 1], r[j]) {
          j := j + 1;
        }
      }
      assert forall k {:trigger Parent(k)} :: 1 <= k < |r| && Parent(k) == i ==> k == 2 * i + 1 || k == 2 * i + 2;
      if !Before(r[j], r[i]) {
        NotAfterChildren(r, i, j);
        return;
      }
      DownStep(r, i, j);
      r := Swap(r, i, j);
      i := j;
    }
  }

  lemma NotAfterChildren(h: seq<Message>, i: nat, j: nat)
    requires i < |h| && j < |h| && HeapExceptDown(h, i) && NotAfter(h[i], h[j])
    requires forall k {:trigger Parent(k)} :: 1 <= k < |h| && Parent(k) == i ==> Under(h, j, k)
    ensures IsHeap(h)
  {
    hide Before;
    forall k {:trigger Parent(k)} | 1 <= k < |h| && Parent(k) == i ensures Under(h, i, k) {
      assert Under(h, j, k);
      NotAfterTransitive(h[i], h[j], h[k]);
    }
  }

  /** heap.Pop: the root out, the last element sifted down from its place. */
  method Pop(h: seq<Message>) returns (m: Message, r: seq<Message>)
    requires IsHeap(h) && h != []
    ensures m == h[0] && IsHeap(r) && multiset(h) == multiset(r) + multiset{m}
  {
    hide Before;
    var n := |h| - 1;
    m := h[0];
    var rest := Swap(h, 0, n)[..n];
    assert Swap(h, 0, n) == rest + [m];
    assert forall k {:trigger Parent(k)} :: 1 <= k < n && Parent(k) != 0 ==>
      Under(h, Parent(k), k) && Under(rest, Parent(k), k);
    r := Down(rest);
  }

  // ---------------------------------------------------------------------------
  // What the heap stands for
  // ---------------------------------------------------------------------------

  /** The heap's contents in order. */
  function Order(h: seq<Message>): (r: seq<Message>)
    ensures |r| == |h|
  {
    if h == [] then [] else Insert(Order(h[1..]), h[0])
  }

  lemma {:induction false} OrderMultiset(h: seq<Message>)
    ensures multiset(Order(h)) == multiset(h)
  {
    if h != [] {
      OrderMultiset(h[1..]);
      InsertMultiset(Order(h[1..]), h[0]);
      assert h == [h[0]] + h[1..];
    }
  }

  lemma OrderIn(h: seq<Message>)
    ensures forall x :: x in Order(h) <==> x in h
  {
    OrderMultiset(h);
    assert forall x :: x in Order(h) <==> x in multiset(Order(h));
    assert forall x :: x in h <==> x in multiset(h);
  }

  lemma {:induction false} OrderAscending(h: seq<Message>)
    requires DistinctIds(h)
    ensures Ascending(Order(h))
  {
    if h != [] {
      OrderAscending(h[1..]);
      OrderIn(h[1..]);
      InsertAscending(Order(h[1..]), h[0]);
    }
  }

  lemma {:induction false} RootIsLeast(h: seq<Message>, k: nat)
    requires IsHeap(h) && k < |h|
    ensures NotAfter(h[0], h[k])
  {
    hide Before;
    if k == 0 {
      BeforeAsymmetric(h[0], h[0]);
    } else {
      RootIsLeast(h, Parent(k));
      assert Under(h, Parent(k), k);
      NotAfterTransitive(h[0], h[Parent(k)], h[k]);
    }
  }

  /** Two lists of distinct messages with the same contents stand for the same order. */
  lemma OrderOfContents(a: seq<Message>, b: seq<Message>)
    requires DistinctIds(a) && DistinctIds(b) && multiset(a) == multiset(b)
    ensures Order(a) == Order(b)
  {
    OrderAscending(a);
    OrderAscending(b);
    OrderMultiset(a);
    OrderMultiset(b);
    AscendingUnique(Order(a), Order(b));
  }

  /** A permutation of distinct messages is distinct. */
  lemma DistinctByContents(a: seq<Message>, b: seq<Message>)
    requires DistinctIds(a) && multiset(a) == multiset(b)
    ensures DistinctIds(b)
  {
    forall i, j | 0 <= i < j < |b| ensures b[i].id != b[j].id {
      if b[i].id == b[j].id {
        assert b[i] in multiset(a) && b[j] in multiset(a);
        var p :| 0 <= p < |a| && a[p] == b[i];
        var q :| 0 <= q < |a| && a[q] == b[j];
        if p == q {
          TwoCopies(b, i, j);
          OneCopy(a, p);
          assert false;
        }
      }
    }
  }

  lemma TwoCopies(b: seq<Message>, i: nat, j: nat)
    requires i < j < |b| && b[i] == b[j]
    ensures multiset(b)[b[i]] >= 2
  {
    assert b == b[..j] + [b[j]] + b[j + 1..];
    assert b[..j][i] == b[i];
    assert b[i] in multiset(b[..j]);
  }

  lemma OneCopy(a: seq<Message>, p: nat)
    requires DistinctIds(a) && p < |a|
    ensures multiset(a)[a[p]] == 1
  {
    assert a == a[..p] + [a[p]] + a[p + 1..];
    assert a[p] !in a[..p] && a[p] !in a[p + 1..];
    assert a[p] !in multiset(a[..p]) && a[p] !in multiset(a[p + 1..]);
  }

  /** Pushing puts the message in its place in the order. */
  lemma PushOrder(h: seq<Message>, m: Message, r: seq<Message>)
    requires DistinctIds(h + [m]) && multiset(r) == multiset(h) + multiset{m}
    ensures Order(r) == Insert(Order(h), m) && DistinctIds(r)
  {
    var g := [m] + h;
    assert multiset(h + [m]) == multiset(h) + multiset{m} == multiset(g);
    DistinctByContents(h + [m], r);
    DistinctByContents(h + [m], g);
    OrderOfContents(r, g);
    assert g[1..] == h;
  }

  /** Popping takes the first message of the order. */
  lemma PopOrder(h: seq<Message>, m: Message, r: seq<Message>)
    requires IsHeap(h) && h != [] && DistinctIds(h) && m == h[0]
    requires multiset(h) == multiset(r) + multiset{m}
    ensures Order(h) == [m] + Order(r) && DistinctIds(r)
  {
    var g := [m] + r;
    assert multiset(g) == multiset(r) + multiset{m};
    DistinctByContents(h, g);
    assert g[1..] == r;
    forall i, j | 0 <= i < j < |r| ensures r[i].id != r[j].id {
      assert g[i + 1].id != g[j + 1].id;
    }
    OrderAscending(r);
    OrderIn(r);
    forall x | x in Order(r) ensures Before(m, x) {
      LeastOfRest(h, m, r, g, x);
    }
    AscendingCons(m, Order(r));
    OrderMultiset(h);
    OrderMultiset(r);
    OrderAscending(h);
    AscendingUnique(Order(h), [m] + Order(r));
  }

  lemma LeastOfRest(h: seq<Message>, m: Message, r: seq<Message>, g: seq<Message>, x: Message)
    requires IsHeap(h) && h != [] && m == h[0] && g == [m] + r && DistinctIds(g)
    requires multiset(h) == multiset(g) && x in r
    ensures Before(m, x)
  {
    hide Before;
    assert x in multiset(r) && x in multiset(h);
    var k :| 0 <= k < |h| && h[k] == x;
    RootIsLeast(h, k);
    var q :| 0 <= q < |r| && r[q] == x;
    assert g[0].id != g[q + 1].id;
    BeforeAsymmetric(m, x);
  }
}
