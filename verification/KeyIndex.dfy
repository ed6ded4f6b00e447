/** The sorted index of group keys and its cursor pagination. */
module KeyIndex {
  import opened Bytes

  /** Strictly ascending. */
  ghost predicate Sorted(keys: seq<Bytes>) {
    forall i, j | 0 <= i < j < |keys| :: Less(keys[i], keys[j])
  }

  function KeySet(keys: seq<Bytes>): set<Bytes> {
    set k <- keys
  }

  /** sort.SearchStrings: how many keys at the front are less than x. */
  function Position(keys: seq<Bytes>, x: Bytes): (p: nat)
    ensures p <= |keys|
  {
    if keys == [] || !Less(keys[0], x) then 0 else 1 + Position(keys[1..], x)
  }

  lemma {:induction false} PositionSplits(keys: seq<Bytes>, x: Bytes)
    requires Sorted(keys)
    ensures var p := Position(keys, x);
            (forall i | 0 <= i < p :: Less(keys[i], x))
            && (forall i | p <= i < |keys| :: AtMost(x, keys[i]))
            && (p < |keys| && keys[p] != x ==> Less(x, keys[p]))
            && (forall i | p < i < |keys| :: Less(x, keys[i]))
  {
    if keys != [] {
      LessTotal(keys[0], x);
      if Less(keys[0], x) {
        PositionSplits(keys[1..], x);
        forall i | 0 <= i < Position(keys, x) ensures Less(keys[i], x) {
          if i > 0 {
            assert keys[i] == keys[1..][i - 1];
          }
        }
        var p := Position(keys, x);
        forall i | p <= i < |keys| ensures AtMost(x, keys[i]) && (i > p ==> Less(x, keys[i])) {
          assert keys[i] == keys[1..][i - 1];
        }
      } else {
        forall i | 0 < i < |keys| ensures Less(x, keys[i]) {
          assert Less(keys[0], keys[i]);
          if x != keys[0] {
            LessTransitive(x, keys[0], keys[i]);
          }
        }
      }
    }
  }

  /** The binary search of sort.Search. */
  method Search(keys: seq<Bytes>, x: Bytes) returns (i: nat)
    requires Sorted(keys)
    ensures i == Position(keys, x)
  {
    PositionSplits(keys, x);
    i := 0;
    var j := |keys|;
    while i < j
      invariant 0 <= i <= Position(keys, x) <= j <= |keys|
    {
      var h := (i + j) / 2;
      if Less(keys[h], x) {
        AtMostNotLess(keys[h], x);
        i := h + 1;
      } else {
        j := h;
      }
    }
  }

  lemma AtMostNotLess(a: Bytes, x: Bytes)
    requires Less(a, x)
    ensures !AtMost(x, a)
  {
    LessTotal(a, x);
  }

  // ---------------------------------------------------------------------------
  // Insertion
  // ---------------------------------------------------------------------------

  predicate PresentAt(keys: seq<Bytes>, p: nat, x: Bytes) {
    p < |keys| && keys[p] == x
  }

  function Inserted(keys: seq<Bytes>, x: Bytes): seq<Bytes> {
    var p := Position(keys, x);
    if PresentAt(keys, p, x) then keys else keys[..p] + [x] + keys[p..]
  }

  lemma InsertedAscends(keys: seq<Bytes>, x: Bytes)
    requires Sorted(keys)
    ensures Sorted(Inserted(keys, x))
  {
    hide Less, AtMost, Position;
    PositionSplits(keys, x);
    var p, r := Position(keys, x), Inserted(keys, x);
    if !PresentAt(keys, p, x) {
      forall i, j | 0 <= i < j < |r| ensures Less(r[i], r[j]) {
        assert r[i] == (if i < p then keys[i] else if i == p then x else keys[i - 1]);
        assert r[j] == (if j < p then keys[j] else if j == p then x else keys[j - 1]);
      }
    }
  }

  /** Inserting keeps the index strictly sorted and adds exactly the key. */
  lemma InsertedSorted(keys: seq<Bytes>, x: Bytes)
    requires Sorted(keys)
    ensures Sorted(Inserted(keys, x)) && KeySet(Inserted(keys, x)) == KeySet(keys) + {x}
  {
    hide Sorted, Position;
    InsertedAscends(keys, x);
    var p, r := Position(keys, x), Inserted(keys, x);
    if !PresentAt(keys, p, x) {
      assert keys == keys[..p] + keys[p..];
      forall k ensures k in r <==> k in keys || k == x {
        assert k in keys <==> k in keys[..p] || k in keys[p..];
      }
    }
  }

  /** Ascending, a key perhaps more than once. */
  ghost predicate Ascending(keys: seq<Bytes>) {
    forall i, j | 0 <= i < j < |keys| :: AtMost(keys[i], keys[j])
  }

  /** The key put in at its place, though it be there already. */
  function Spliced(keys: seq<Bytes>, x: Bytes): seq<Bytes> {
    keys[..Position(keys, x)] + [x] + keys[Position(keys, x)..]
  }

  lemma {:induction false} PositionDivides(keys: seq<Bytes>, x: Bytes)
    requires Ascending(keys)
    ensures var p := Position(keys, x);
            (forall i | 0 <= i < p :: AtMost(keys[i], x)) && (forall i | p <= i < |keys| :: AtMost(x, keys[i]))
  {
    if keys != [] {
      var p, rest := Position(keys, x), keys[1..];
      if Less(keys[0], x) {
        PositionDivides(rest, x);
        assert forall i | 0 < i < |keys| :: keys[i] == rest[i - 1];
      } else {
        LessTotal(keys[0], x);
        forall i | 0 < i < |keys| ensures AtMost(x, keys[i]) {
          AtMostTransitive(x, keys[0], keys[i]);
        }
      }
    }
  }

  lemma AtMostTransitive(a: Bytes, b: Bytes, c: Bytes)
    requires AtMost(a, b) && AtMost(b, c)
    ensures AtMost(a, c)
  {
    if a != b && b != c {
      LessTransitive(a, b, c);
    }
  }

  lemma SplicedAdds(keys: seq<Bytes>, x: Bytes)
    ensures multiset(Spliced(keys, x)) == multiset(keys) + multiset{x}
  {
    hide Position;
    var p := Position(keys, x);
    assert keys == keys[..p] + keys[p..];
  }

  lemma SplicedAscends(keys: seq<Bytes>, x: Bytes)
    requires Ascending(keys)
    ensures Ascending(Spliced(keys, x)) && multiset(Spliced(keys, x)) == multiset(keys) + multiset{x}
  {
    hide AtMost, Position;
    PositionDivides(keys, x);
    SplicedAdds(keys, x);
    var p, r := Position(keys, x), Spliced(keys, x);
    forall i, j | 0 <= i < j < |r| ensures AtMost(r[i], r[j]) {
      assert r[i] == (if i < p then keys[i] else if i == p then x else keys[i - 1]);
      assert r[j] == (if j < p then keys[j] else if j == p then x else keys[j - 1]);
    }
  }

  // ---------------------------------------------------------------------------
  // Pages
  // ---------------------------------------------------------------------------

  datatype Page = Page(keys: seq<Bytes>, next: Bytes)

  /** Where a page after the cursor starts; the empty cursor is the beginning. */
  function StartOf(keys: seq<Bytes>, after: Bytes): nat {
    if after == [] then 0
    else
      var p := Position(keys, after);
      if PresentAt(keys, p, after) then p + 1 else p
  }

  function PageOf(keys: seq<Bytes>, after: Bytes, limit: nat): Page {
    var start := StartOf(keys, after);
    var end := if start + limit > |keys| then |keys| else start + limit;
    if start >= end then Page([], [])
    else Page(keys[start..end], if end < |keys| then keys[end - 1] else [])
  }

  /** A page starts at the first key past the cursor. */
  lemma StartSplits(keys: seq<Bytes>, after: Bytes)
    requires Sorted(keys) && after != []
    ensures StartOf(keys, after) <= |keys|
    ensures forall i | 0 <= i < StartOf(keys, after) :: AtMost(keys[i], after)
    ensures forall i | StartOf(keys, after) <= i < |keys| :: Less(after, keys[i])
  {
    hide Less, Position;
    PositionSplits(keys, after);
    forall i | 0 <= i < StartOf(keys, after) ensures AtMost(keys[i], after) {
    }
  }

  /** The limit PageGroupStats works with. */
  function Limit(limit: int): (n: nat)
    ensures 1 <= n <= 1000 && (1 <= limit <= 1000 ==> n == limit) && (limit == 0 ==> n == 100)
  {
    if limit <= 0 || limit > 1000 then 100 else limit
  }

  class GroupKeyIndex {
    var keys: seq<Bytes>

    constructor ()
      ensures keys == []
    {
      keys := [];
    }

    method Add(key: Bytes)
      requires Sorted(keys)
      modifies this
      ensures keys == Inserted(old(keys), key)
      ensures Sorted(keys) && KeySet(keys) == KeySet(old(keys)) + {key}
    {
      InsertedSorted(keys, key);
      var i := Search(keys, key);
      if i < |keys| && keys[i] == key {
        return;
      }
      keys := keys[..i] + [key] + keys[i..];
    }

    method GetPage(after: Bytes, limit: nat) returns (page: Page)
      requires Sorted(keys)
      ensures page == PageOf(keys, after, limit)
    {
      hide Less, Position, Sorted;
      var start := 0;
      if after != [] {
        var i := Search(keys, after);
        if i < |keys| && keys[i] == after {
          start := i + 1;
        } else {
          start := i;
        }
      }
      var end := start + limit;
      if end > |keys| {
        end := |keys|;
      }
      if start >= end {
        return Page([], []);
      }
      var next: Bytes := [];
      if end < |keys| {
        next := keys[end - 1];
      }
      return Page(keys[start..end], next);
    }
  }

  // ---------------------------------------------------------------------------
  // Scans
  // ---------------------------------------------------------------------------

  datatype Scan = Scan(keys: seq<Bytes>, complete: bool)

  /** Pages read one after the other until the cursor comes back empty; versions[i] is
      the index when page i is read. */
  function ScanFrom(after: Bytes, versions: seq<seq<Bytes>>, limit: nat): Scan
    decreases |versions|
  {
    if versions == [] then Scan([], false)
    else
      var page := PageOf(versions[0], after, limit);
      if page.next == [] then Scan(page.keys, true)
      else
        var rest := ScanFrom(page.next, versions[1..], limit);
        Scan(page.keys + rest.keys, rest.complete)
  }

  /** Keys are only added between pages. */
  ghost predicate Growing(versions: seq<seq<Bytes>>) {
    (forall i | 0 <= i < |versions| :: Sorted(versions[i]))
    && (forall i | 0 < i < |versions| :: KeySet(versions[i - 1]) <= KeySet(versions[i]))
  }

  lemma GrowingTail(versions: seq<seq<Bytes>>)
    requires Growing(versions) && versions != []
    ensures Growing(versions[1..])
    ensures |versions| > 1 ==> KeySet(versions[0]) <= KeySet(versions[1..][0])
  {
    hide Sorted, KeySet;
    var tail := versions[1..];
    forall i | 0 < i < |tail| ensures KeySet(tail[i - 1]) <= KeySet(tail[i]) {
      assert tail[i] == versions[i + 1] && tail[i - 1] == versions[i];
    }
  }

  predicate AllAfter(after: Bytes, keys: seq<Bytes>) {
    forall k <- keys :: Less(after, k)
  }

  lemma JoinSorted(a: seq<Bytes>, b: seq<Bytes>)
    requires Sorted(a) && Sorted(b) && a != [] && AllAfter(a[|a| - 1], b)
    ensures Sorted(a + b)
  {
    hide Less;
    var r, n := a + b, |a|;
    forall i, j | 0 <= i < j < |r| ensures Less(r[i], r[j]) {
      if i < n <= j {
        assert r[j] in b;
        if i < n - 1 {
          LessTransitive(a[i], a[n - 1], r[j]);
        }
      }
    }
  }

  /** What one page after a nonempty cursor holds, and what it leaves. */
  lemma PageAfter(keys: seq<Bytes>, after: Bytes, limit: nat)
    requires Sorted(keys) && after != [] && limit > 0
    ensures var page := PageOf(keys, after, limit);
            && Sorted(page.keys) && AllAfter(after, page.keys) && KeySet(page.keys) <= KeySet(keys)
            && (page.next != [] ==> page.keys != [] && page.next == page.keys[|page.keys| - 1])
            && (forall k <- keys :: Less(after, k) ==>
                  k in page.keys || (page.next != [] && Less(page.next, k)))
  {
    hide Less, StartOf, AtMost;
    StartSplits(keys, after);
    var start, page := StartOf(keys, after), PageOf(keys, after, limit);
    forall k <- keys | Less(after, k)
      ensures k in page.keys || (page.next != [] && Less(page.next, k))
    {
      var i :| 0 <= i < |keys| && keys[i] == k;
      if i < start {
        AtMostNotAfter(k, after);
      } else if i < start + |page.keys| {
        assert page.keys[i - start] == k;
      } else {
        var end := start + |page.keys|;
        assert page.next == keys[end - 1] && Less(keys[end - 1], k);
        assert Less(after, keys[end - 1]);
        NothingBelowEmpty(after);
      }
    }
  }

  lemma AtMostNotAfter(k: Bytes, after: Bytes)
    requires AtMost(k, after)
    ensures !Less(after, k)
  {
    LessTotal(k, after);
  }

  lemma NothingBelowEmpty(k: Bytes)
    ensures !Less(k, [])
  {
  }

  /** A scan from a nonempty cursor: ascending, past the cursor, only keys of the index,
      and when it completes every key past the cursor that was there at the start. */
  lemma {:induction false} ScanAfter(after: Bytes, versions: seq<seq<Bytes>>, limit: nat)
    requires Growing(versions) && after != [] && limit > 0
    ensures var scan := ScanFrom(after, versions, limit);
            && Sorted(scan.keys) && AllAfter(after, scan.keys)
            && (versions != [] ==> KeySet(scan.keys) <= KeySet(versions[|versions| - 1]))
            && (versions != [] && scan.complete ==>
                  forall k <- versions[0] :: Less(after, k) ==> k in scan.keys)
    decreases |versions|
  {
    hide Less, PageOf, Sorted, AllAfter, KeySet, Growing;
    if versions == [] {
      NothingSorted(after);
    } else {
      var keys, tail := versions[0], versions[1..];
      FirstSorted(versions);
      PageAfter(keys, after, limit);
      var page, scan := PageOf(keys, after, limit), ScanFrom(after, versions, limit);
      FirstInLast(versions);
      if page.next != [] {
        var rest := ScanFrom(page.next, tail, limit);
        GrowingTail(versions);
        ScanAfter(page.next, tail, limit);
        JoinScan(after, page, rest.keys);
        KeySetJoin(page.keys, rest.keys);
        forall k <- keys | scan.complete && Less(after, k) ensures k in scan.keys {
          if k !in page.keys {
            assert tail != [];
            SubsetHas(keys, tail[0], k);
          }
        }
        assert tail != [] ==> tail[|tail| - 1] == versions[|versions| - 1];
        if tail == [] {
          assert rest.keys == [];
          assert page.keys + [] == page.keys;
        }
      }
    }
  }

  lemma NothingSorted(after: Bytes)
    ensures Sorted([]) && AllAfter(after, [])
  {
  }

  lemma FirstSorted(versions: seq<seq<Bytes>>)
    requires Growing(versions) && versions != []
    ensures Sorted(versions[0])
  {
  }

  lemma {:induction false} FirstInLast(versions: seq<seq<Bytes>>)
    requires Growing(versions) && versions != []
    ensures KeySet(versions[0]) <= KeySet(versions[|versions| - 1])
    decreases |versions|
  {
    hide KeySet, Growing;
    if |versions| > 1 {
      GrowingTail(versions);
      FirstInLast(versions[1..]);
    }
  }

  lemma JoinScan(after: Bytes, page: Page, rest: seq<Bytes>)
    requires page.keys != [] && page.next == page.keys[|page.keys| - 1]
    requires Sorted(page.keys) && AllAfter(after, page.keys) && Sorted(rest) && AllAfter(page.next, rest)
    ensures Sorted(page.keys + rest) && AllAfter(after, page.keys + rest)
  {
    hide Less;
    JoinSorted(page.keys, rest);
    forall k <- page.keys + rest ensures Less(after, k) {
      if k !in page.keys {
        assert page.next in page.keys;
        LessTransitive(after, page.next, k);
      }
    }
  }

  lemma KeySetJoin(a: seq<Bytes>, b: seq<Bytes>)
    ensures KeySet(a + b) == KeySet(a) + KeySet(b)
  {
  }

  lemma SubsetHas(a: seq<Bytes>, b: seq<Bytes>, k: Bytes)
    requires KeySet(a) <= KeySet(b) && k in a
    ensures k in b
  {
    assert k in KeySet(a);
    assert k in KeySet(b);
  }

  /** The first page: from the beginning, and where it stops. */
  lemma FirstPage(keys: seq<Bytes>, limit: nat)
    requires Sorted(keys) && limit > 0
    ensures var page := PageOf(keys, [], limit);
            && Sorted(page.keys) && KeySet(page.keys) <= KeySet(keys)
            && (page.next != [] ==>
                  && page.keys != [] && page.next == page.keys[|page.keys| - 1]
                  && (forall k <- keys :: k in page.keys || Less(page.next, k))
                  && !CursorIsEmptyKey(keys, limit))
            && (page.next == [] ==> ((forall k <- keys :: k in page.keys) <==> !CursorIsEmptyKey(keys, limit)))
  {
    hide Less;
    var page := PageOf(keys, [], limit);
    var end := |page.keys|;
    forall k <- keys ensures k in page.keys || (end < |keys| && end > 0 && Less(keys[end - 1], k)) {
      var i :| 0 <= i < |keys| && keys[i] == k;
      if i < end {
        assert page.keys[i] == k;
      }
    }
    if [] in keys {
      EmptyKeyIsFirst(keys);
    }
    if end < |keys| && keys[end - 1] == [] {
      EmptyKeyIsFirst(keys);
      SecondNotOnPage(keys);
      assert page.keys == keys[..1];
    }
  }

  /** The cursor of the first page is the empty key itself. */
  predicate CursorIsEmptyKey(keys: seq<Bytes>, limit: nat) {
    limit == 1 && [] in keys && |keys| > 1
  }

  lemma EmptyKeyIsFirst(keys: seq<Bytes>)
    requires Sorted(keys) && [] in keys
    ensures keys[0] == [] && forall i | 0 < i < |keys| :: keys[i] != []
  {
    var i :| 0 <= i < |keys| && keys[i] == [];
    assert i > 0 ==> Less(keys[0], keys[i]);
    forall j | 0 < j < |keys| ensures keys[j] != [] {
      assert Less(keys[0], keys[j]);
    }
  }

  lemma SecondNotOnPage(keys: seq<Bytes>)
    requires Sorted(keys) && |keys| > 1
    ensures keys[1] in keys && keys[1] !in keys[..1]
  {
    LessTotal(keys[0], keys[1]);
  }

  /** A scan from the beginning gives ascending keys, so none twice, and only keys of
      the index; and a completed one gives every key that was there when it began, even
      if keys are added between the pages, unless pages hold one key and the first is
      the empty key, whose cursor reads as the end. */
  lemma CompletedScanIsFullIff(versions: seq<seq<Bytes>>, limit: nat)
    requires Growing(versions) && versions != [] && limit > 0
    ensures var scan := ScanFrom([], versions, limit);
            && Sorted(scan.keys) && KeySet(scan.keys) <= KeySet(versions[|versions| - 1])
            && (scan.complete ==>
                  ((forall k <- versions[0] :: k in scan.keys) <==> !CursorIsEmptyKey(versions[0], limit)))
  {
    hide Less, PageOf, Sorted, AllAfter, KeySet, Growing, CursorIsEmptyKey;
    var keys, tail := versions[0], versions[1..];
    FirstSorted(versions);
    FirstPage(keys, limit);
    FirstInLast(versions);
    var page, scan := PageOf(keys, [], limit), ScanFrom([], versions, limit);
    if page.next != [] {
      var rest := ScanFrom(page.next, tail, limit);
      GrowingTail(versions);
      ScanAfter(page.next, tail, limit);
      assert Sorted(page.keys + rest.keys) by { JoinSorted(page.keys, rest.keys); }
      KeySetJoin(page.keys, rest.keys);
      forall k <- keys | scan.complete ensures k in scan.keys {
        if k !in page.keys {
          assert tail != [];
          SubsetHas(keys, tail[0], k);
        }
      }
      assert tail != [] ==> tail[|tail| - 1] == versions[|versions| - 1];
      if tail == [] {
        assert page.keys + [] == page.keys;
      }
    }
  }

  /** Two keys, one of them empty, one key to a page: the scan ends after the first. */
  lemma EmptyKeyEndsTheScan()
    ensures var keys: seq<Bytes> := [[], [97]];
            Sorted(keys) && ScanFrom([], [keys], 1) == Scan([[]], true)
  {
    var keys: seq<Bytes> := [[], [97]];
    assert PageOf(keys, [], 1) == Page([[]], []);
  }
}
