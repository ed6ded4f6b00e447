/** A queue's groups, spread over shards by a hash of their key, next to the sorted
    index of the keys.  T is what a group holds. */
module ShardedQueue {
  import opened Bytes
  import opened KeyIndex

  const SHARDS := 32

  /** One byte of FNV-1a, 32 bits: exclusive or, then multiply. */
  function Mix(h: bv32, b: Byte): bv32 {
    (h ^ (b as bv32)) * 16777619
  }

  function HashKey(s: Bytes): bv32 {
    if s == [] then 2166136261 else Mix(HashKey(s[..|s| - 1]), s[|s| - 1])
  }

  method Hash(s: Bytes) returns (h: bv32)
    ensures h == HashKey(s)
  {
    hide Mix;
    h := 2166136261;
    var i := 0;
    while i < |s|
      invariant 0 <= i <= |s|
      invariant h == HashKey(s[..i])
    {
      h := Mix(h, s[i]);
      i := i + 1;
      assert s[..i][..i - 1] == s[..i - 1];
    }
    assert s[..i] == s;
  }

  /** Published values of the hash: of nothing, of "a" and of "foobar". */
  lemma HashValues()
    ensures HashKey([]) == 0x811C_9DC5 && HashKey([97]) == 0xE40C_292C
    ensures HashKey([102, 111, 111, 98, 97, 114]) == 0xBF9C_F968
  {
    MixedSteps();
    hide Mix;
    HashSnoc([], 97);
    assert [] + [97] == [97];
    HashSnoc([], 102);
    assert [] + [102] == [102];
    HashSnoc([102], 111);
    assert [102] + [111] == [102, 111];
    HashSnoc([102, 111], 111);
    assert [102, 111] + [111] == [102, 111, 111];
    HashSnoc([102, 111, 111], 98);
    assert [102, 111, 111] + [98] == [102, 111, 111, 98];
    HashSnoc([102, 111, 111, 98], 97);
    assert [102, 111, 111, 98] + [97] == [102, 111, 111, 98, 97];
    HashSnoc([102, 111, 111, 98, 97], 114);
    assert [102, 111, 111, 98, 97] + [114] == [102, 111, 111, 98, 97, 114];
  }

  lemma MixedSteps()
    ensures Mix(0x811C_9DC5, 97) == 0xE40C_292C
    ensures Mix(0x811C_9DC5, 102) == 0xE30C_2799
    ensures Mix(0xE30C_2799, 111) == 0x6222_E842
    ensures Mix(0x6222_E842, 111) == 0xA9F3_7ED7
    ensures Mix(0xA9F3_7ED7, 98) == 0x3F50_76EF
    ensures Mix(0x3F50_76EF, 97) == 0x39AA_A18A
    ensures Mix(0x39AA_A18A, 114) == 0xBF9C_F968
  {
  }

  lemma HashSnoc(s: Bytes, b: Byte)
    ensures HashKey(s + [b]) == Mix(HashKey(s), b)
  {
    hide Mix;
    assert (s + [b])[..|s|] == s;
  }

  /** The shard of a hash: its five low bits. */
  function LowBits(h: bv32): (i: nat)
    ensures i < SHARDS
  {
    (h & 31) as nat
  }

  function ShardOf(key: Bytes): (i: nat)
    ensures i < SHARDS
  {
    LowBits(HashKey(key))
  }

  // ---------------------------------------------------------------------------
  // The shards as one map
  // ---------------------------------------------------------------------------

  /** Every key is in its own shard. */
  predicate Owned<T>(shards: seq<map<Bytes, T>>) {
    |shards| == SHARDS && forall i | 0 <= i < SHARDS :: forall k <- shards[i] :: ShardOf(k) == i
  }

  function KeysOf<T>(shards: seq<map<Bytes, T>>): set<Bytes> {
    set i, k | 0 <= i < |shards| && k in shards[i] :: k
  }

  function Flat<T>(shards: seq<map<Bytes, T>>): map<Bytes, T>
    requires Owned(shards)
  {
    map k | k in KeysOf(shards) :: shards[ShardOf(k)][k]
  }

  /** Looking in a key's shard is looking in the one map. */
  lemma LookupIsFlat<T>(shards: seq<map<Bytes, T>>, k: Bytes)
    requires Owned(shards)
    ensures k in Flat(shards) <==> k in shards[ShardOf(k)]
    ensures k in Flat(shards) ==> Flat(shards)[k] == shards[ShardOf(k)][k]
  {
    hide ShardOf;
  }

  function Stored<T>(shards: seq<map<Bytes, T>>, k: Bytes, v: T): seq<map<Bytes, T>>
    requires Owned(shards)
  {
    shards[ShardOf(k) := shards[ShardOf(k)][k := v]]
  }

  /** Storing in a key's shard is storing in the one map. */
  lemma StoreIsFlat<T>(shards: seq<map<Bytes, T>>, k: Bytes, v: T)
    requires Owned(shards)
    ensures Owned(Stored(shards, k, v))
    ensures Flat(Stored(shards, k, v)) == Flat(shards)[k := v]
  {
    hide ShardOf;
    var after := Stored(shards, k, v);
    assert Owned(after);
    forall x ensures x in Flat(after) <==> x in Flat(shards)[k := v] {
      LookupIsFlat(after, x);
      LookupIsFlat(shards, x);
    }
  }

  /** Going through the shards meets every group once. */
  lemma {:induction false} UnionIsFlat<T>(shards: seq<map<Bytes, T>>, n: nat, m: map<Bytes, T>)
    requires Owned(shards) && n <= SHARDS
    requires forall k :: k in m <==> k in Flat(shards) && ShardOf(k) < n
    requires forall k <- m :: m[k] == Flat(shards)[k]
    ensures n < SHARDS ==>
              var m' := m + shards[n];
              (forall k :: k in m' <==> k in Flat(shards) && ShardOf(k) < n + 1)
              && (forall k <- m' :: m'[k] == Flat(shards)[k])
    ensures n == SHARDS ==> m == Flat(shards)
  {
    hide ShardOf, Flat;
    if n < SHARDS {
      var m' := m + shards[n];
      forall k ensures k in m' <==> k in Flat(shards) && ShardOf(k) < n + 1 {
        LookupIsFlat(shards, k);
      }
      forall k <- m' ensures m'[k] == Flat(shards)[k] {
        LookupIsFlat(shards, k);
      }
    }
  }

  // ---------------------------------------------------------------------------
  // Import
  // ---------------------------------------------------------------------------

  datatype Named<T> = Named(key: Bytes, value: T)

  function KeysIn<T>(gs: seq<Named<T>>): seq<Bytes> {
    seq(|gs|, i requires 0 <= i < |gs| => gs[i].key)
  }

  function Overlaid<T>(m: map<Bytes, T>, gs: seq<Named<T>>): map<Bytes, T> {
    if gs == [] then m else Overlaid(m, gs[..|gs| - 1])[gs[|gs| - 1].key := gs[|gs| - 1].value]
  }

  /** sort.Strings: keys that occur more than once stay so. */
  function SortedKeys(ks: seq<Bytes>): seq<Bytes> {
    if ks == [] then [] else Spliced(SortedKeys(ks[..|ks| - 1]), ks[|ks| - 1])
  }

  /** No key occurs twice. */
  ghost predicate Distinct(ks: seq<Bytes>) {
    forall i, j | 0 <= i < j < |ks| :: ks[i] != ks[j]
  }

  lemma {:induction false} SortedKeysSort(ks: seq<Bytes>)
    ensures Ascending(SortedKeys(ks)) && multiset(SortedKeys(ks)) == multiset(ks)
  {
    hide Spliced, Ascending;
    if ks == [] {
      EmptyAscends();
    } else {
      var front, k := ks[..|ks| - 1], ks[|ks| - 1];
      SortedKeysSort(front);
      SplicedAscends(SortedKeys(front), k);
      assert ks == front + [k];
    }
  }

  lemma SortedKeysList(ks: seq<Bytes>)
    ensures KeySet(SortedKeys(ks)) == KeySet(ks)
  {
    SortedKeysSort(ks);
    hide SortedKeys, Ascending;
    forall k ensures k in SortedKeys(ks) <==> k in ks {
      assert k in multiset(SortedKeys(ks)) <==> k in multiset(ks);
    }
  }

  /** The sorted keys are strictly ascending, as the index must be, if and only if none
      occurs twice. */
  lemma SortedIffDistinct(ks: seq<Bytes>)
    ensures Sorted(SortedKeys(ks)) <==> Distinct(ks)
  {
    SortedKeysSort(ks);
    StrictIffDistinct(SortedKeys(ks));
    hide SortedKeys, Ascending, Sorted;
    DistinctIsCount(ks);
    DistinctIsCount(SortedKeys(ks));
  }

  lemma {:induction false} DistinctIsCount(ks: seq<Bytes>)
    ensures Distinct(ks) <==> forall k :: multiset(ks)[k] <= 1
  {
    if ks != [] {
      var front, k := ks[..|ks| - 1], ks[|ks| - 1];
      DistinctIsCount(front);
      assert ks == front + [k];
      assert forall x :: multiset(ks)[x] == multiset(front)[x] + if x == k then 1 else 0;
      if Distinct(ks) {
        assert Distinct(front);
        assert forall i | 0 <= i < |front| :: front[i] == ks[i] != ks[|front|];
        assert k !in front;
      } else {
        SameTwice(front, k);
        if Distinct(front) {
          assert multiset(front)[k] >= 1 && multiset(ks)[k] >= 2;
        } else {
          var x :| multiset(front)[x] > 1;
          assert multiset(ks)[x] > 1;
        }
      }
    }
  }

  lemma SameTwice(front: seq<Bytes>, k: Bytes)
    requires !Distinct(front + [k])
    ensures !Distinct(front) || k in front
  {
    var ks := front + [k];
    var i, j :| 0 <= i < j < |ks| && ks[i] == ks[j];
    if j < |front| {
      assert front[i] == front[j];
    }
  }

  lemma StrictIffDistinct(keys: seq<Bytes>)
    requires Ascending(keys)
    ensures Sorted(keys) <==> Distinct(keys)
  {
    hide Less;
    forall i, j | 0 <= i < j < |keys| ensures Less(keys[i], keys[j]) <==> keys[i] != keys[j] {
      LessTotal(keys[i], keys[j]);
    }
  }

  lemma EmptyAscends()
    ensures Ascending([])
  {
  }

  lemma {:induction false} OverlaidKeys<T>(m: map<Bytes, T>, gs: seq<Named<T>>)
    ensures Overlaid(m, gs).Keys == m.Keys + KeySet(KeysIn(gs))
  {
    if gs == [] {
      assert KeysIn(gs) == [];
    } else {
      var front, g := gs[..|gs| - 1], gs[|gs| - 1];
      OverlaidKeys(m, front);
      assert KeysIn(gs) == KeysIn(front) + [g.key];
    }
  }

  /** After an import the index lists the groups exactly, if and only if every group
      there before is among those imported: the others stay, but are listed no more. */
  lemma ImportAgreesIff<T>(m: map<Bytes, T>, gs: seq<Named<T>>)
    ensures KeySet(SortedKeys(KeysIn(gs))) == Overlaid(m, gs).Keys <==> m.Keys <= KeySet(KeysIn(gs))
  {
    hide SortedKeys, Overlaid, KeySet;
    OverlaidKeys(m, gs);
    SortedKeysList(KeysIn(gs));
  }

  /** Recovery imports once, into a queue without groups: then all are listed. */
  lemma ImportIntoEmptyIsListed<T>(gs: seq<Named<T>>)
    ensures KeySet(SortedKeys(KeysIn(gs))) == Overlaid(map[], gs).Keys
  {
    ImportAgreesIff(map[], gs);
  }

  /** A group of that name is there, and an import that names only another one hides it
      from every listing. */
  lemma ImportHidesAGroup<T>(key: Bytes, value: T, other: Named<T>)
    requires key != other.key
    ensures key in Overlaid(map[key := value], [other]) && SortedKeys(KeysIn([other])) == [other.key]
  {
    OverlaidKeys(map[key := value], [other]);
    var ks := KeysIn([other]);
    assert ks == [other.key] && ks[..0] == [];
    assert SortedKeys(ks[..0]) == [];
    assert Spliced([], other.key) == [other.key];
  }

  // ---------------------------------------------------------------------------
  // The queue
  // ---------------------------------------------------------------------------

  class Queue<T(0)> {
    const shards: array<map<Bytes, T>>
    const index: GroupKeyIndex

    /** Keys are in their shards, and the index is sorted and lists only groups. */
    ghost predicate Valid()
      reads this, shards, index
    {
      Owned(shards[..]) && Sorted(index.keys) && KeySet(index.keys) <= Flat(shards[..]).Keys
    }

    /** The groups, as one map. */
    ghost function Groups(): map<Bytes, T>
      requires Valid()
      reads this, shards, index
    {
      Flat(shards[..])
    }

    /** The index lists exactly the groups. */
    ghost predicate Listed()
      requires Valid()
      reads this, shards, index
    {
      KeySet(index.keys) == Groups().Keys
    }

    constructor ()
      ensures Valid() && fresh(shards) && fresh(index)
      ensures Groups() == map[] && Listed()
    {
      hide ShardOf;
      shards := new map<Bytes, T>[SHARDS](_ => map[]);
      index := new GroupKeyIndex();
      new;
      assert Owned(shards[..]);
      assert KeysOf(shards[..]) == {};
    }

    method Get(key: Bytes) returns (r: Option<T>)
      requires Valid()
      ensures r == if key in Groups() then Some(Groups()[key]) else None
    {
      hide Flat;
      LookupIsFlat(shards[..], key);
      var h := Hash(key);
      var shard := shards[LowBits(h)];
      r := if key in shard then Some(shard[key]) else None;
    }

    /** A group put into its shard, and listed if it is new. */
    method Put(key: Bytes, value: T)
      requires Valid()
      modifies shards, index
      ensures Valid() && Groups() == old(Groups())[key := value]
      ensures KeySet(index.keys)
           == if key in old(Groups()) then KeySet(old(index.keys)) else KeySet(old(index.keys)) + {key}
      ensures old(Listed()) ==> Listed()
    {
      hide Flat, Inserted;
      LookupIsFlat(shards[..], key);
      StoreIsFlat(shards[..], key, value);
      var h := Hash(key);
      var i := LowBits(h);
      var known := key in shards[i];
      shards[i] := shards[i][key := value];
      assert shards[..] == Stored(old(shards[..]), key, value);
      if !known {
        index.Add(key);
      }
    }

    /** Every shard in turn. */
    method Export() returns (m: map<Bytes, T>)
      requires Valid()
      ensures m == Groups()
    {
      hide Flat, ShardOf, Owned;
      m := map[];
      var i := 0;
      while i < SHARDS
        invariant 0 <= i <= SHARDS
        invariant forall k :: k in m <==> k in Flat(shards[..]) && ShardOf(k) < i
        invariant forall k <- m :: m[k] == Flat(shards[..])[k]
      {
        UnionIsFlat(shards[..], i, m);
        assert shards.Length == SHARDS by { OwnedLength(shards[..]); }
        assert shards[i] == shards[..][i];
        m := m + shards[i];
        i := i + 1;
      }
      UnionIsFlat(shards[..], i, m);
    }

    /** ImportState: put every group, then replace the whole index. */
    method Import(gs: seq<Named<T>>)
      requires Valid()
      modifies shards, index
      ensures Owned(shards[..]) && Flat(shards[..]) == Overlaid(old(Groups()), gs)
      ensures index.keys == SortedKeys(KeysIn(gs))
      ensures Ascending(index.keys) && multiset(index.keys) == multiset(KeysIn(gs))
      ensures Valid() <==> Distinct(KeysIn(gs))
      ensures Valid() ==> (Listed() <==> old(Groups()).Keys <= KeySet(KeysIn(gs)))
      ensures Valid() && old(Groups()) == map[] ==> Listed()
    {
      hide Flat, Sorted, SortedKeys, KeySet, Ascending, Distinct;
      OverlaidKeys(Groups(), gs);
      var i := 0;
      while i < |gs|
        invariant 0 <= i <= |gs| && Valid()
        invariant index.keys == old(index.keys)
        invariant Groups() == Overlaid(old(Groups()), gs[..i])
      {
        var h := Hash(gs[i].key);
        var j := LowBits(h);
        StoreIsFlat(shards[..], gs[i].key, gs[i].value);
        label before:
        shards[j] := shards[j][gs[i].key := gs[i].value];
        assert shards[..] == Stored(old@before(shards[..]), gs[i].key, gs[i].value);
        i := i + 1;
        assert gs[..i][..i - 1] == gs[..i - 1];
      }
      assert gs[..i] == gs;
      SortedKeysSort(KeysIn(gs));
      SortedKeysList(KeysIn(gs));
      SortedIffDistinct(KeysIn(gs));
      ImportAgreesIff(old(Groups()), gs);
      index.keys := SortedKeys(KeysIn(gs));
    }

    /** PageGroupStats: the groups of one page of the index, in its order. */
    method GetPageStats(after: Bytes, limit: int) returns (stats: seq<Named<T>>, next: Bytes)
      requires Valid()
      ensures var page := PageOf(index.keys, after, Limit(limit));
              next == page.next && KeysIn(stats) == page.keys
              && forall g <- stats :: g.key in Groups() && g.value == Groups()[g.key]
    {
      hide Flat, Sorted, PageOf, HashKey;
      var page := index.GetPage(after, Limit(limit));
      PageFromIndex(index.keys, after, Limit(limit));
      next := page.next;
      stats := [];
      var i := 0;
      while i < |page.keys|
        invariant 0 <= i <= |page.keys|
        invariant KeysIn(stats) == page.keys[..i]
        invariant forall g <- stats :: g.key in Groups() && g.value == Groups()[g.key]
      {
        var key := page.keys[i];
        assert key in KeySet(index.keys);
        LookupIsFlat(shards[..], key);
        var h := Hash(key);
        var shard := shards[LowBits(h)];
        if key in shard {
          ghost var was := stats;
          stats := stats + [Named(key, shard[key])];
          assert KeysIn(stats) == KeysIn(was) + [key];
        }
        i := i + 1;
      }
    }
  }

  lemma OwnedLength<T>(shards: seq<map<Bytes, T>>)
    requires Owned(shards)
    ensures |shards| == SHARDS
  {
  }

  lemma PageFromIndex(keys: seq<Bytes>, after: Bytes, limit: nat)
    ensures forall k <- PageOf(keys, after, limit).keys :: k in keys
  {
    hide Position;
  }
}
