/** The subscriber registry as the broker runs it, and its round robin. */
module Subscriptions {
  import opened Bytes
  import Glob
  import opened Modular
  import opened Registry
  import opened Frames

  class SubRegistry {
    var exact: map<Key, List>
    var wildcard: map<Key, List>
    var subs: map<Conn, seq<Entry>>

    function Abs(): Reg
      reads this
    {
      Reg(exact, wildcard, subs)
    }

    constructor ()
      ensures Abs() == EMPTY
    {
      exact, wildcard, subs := map[], map[], map[];
    }

    method Add(key: Key, c: Conn)
      modifies this
      ensures Abs() == Registry.Add(old(Abs()), key, c)
    {
      var e := EntryFor(key);
      var l := ListAt(Abs(), e);
      l := l.(conns := l.conns + [c]);
      if e.wildcard {
        wildcard := wildcard[key := l];
      } else {
        exact := exact[key := l];
      }
      subs := subs[c := (if c in subs then subs[c] else []) + [e]];
    }

    /** subList.remove: the first occurrence goes. */
    static method TakeOut(conns: seq<Conn>, c: Conn) returns (left: seq<Conn>)
      ensures left == Without(conns, c)
    {
      hide Without;
      var i := 0;
      while i < |conns| && conns[i] != c
        invariant 0 <= i <= |conns| && c !in conns[..i]
      {
        i := i + 1;
      }
      WithoutFirst(conns, c, i);
      left := if i < |conns| then conns[..i] + conns[i + 1..] else conns;
    }

    method DropEntry(e: Entry, c: Conn)
      modifies this`exact, this`wildcard
      ensures Abs() == Registry.DropEntry(old(Abs()), e, c)
    {
      hide Without;
      if e.wildcard {
        if e.key in wildcard {
          var left := TakeOut(wildcard[e.key].conns, c);
          wildcard := if left == [] then wildcard - {e.key}
                      else wildcard[e.key := wildcard[e.key].(conns := left)];
        }
      } else {
        if e.key in exact {
          var left := TakeOut(exact[e.key].conns, c);
          exact := if left == [] then exact - {e.key}
                   else exact[e.key := exact[e.key].(conns := left)];
        }
      }
    }

    method Remove(c: Conn)
      modifies this
      ensures Abs() == Registry.Remove(old(Abs()), c)
    {
      hide Registry.DropEntry;
      var entries := if c in subs then subs[c] else [];
      subs := subs - {c};
      ghost var start := Abs();
      var i := 0;
      while i < |entries|
        invariant 0 <= i <= |entries|
        invariant Abs() == DropEntries(start, entries[..i], c)
      {
        DropEntry(entries[i], c);
        i := i + 1;
        assert entries[..i][..i - 1] == entries[..i - 1];
      }
      assert entries[..i] == entries;
    }

    /** The scan of the pattern map for a list with a connection for the group. */
    method FindPattern(key: Key, order: seq<Key>) returns (found: Option<Key>)
      requires Orders(order, wildcard)
      ensures FirstReady(Abs(), key, order) == if found.Some? then Some(Entry(found.value, true)) else None
      ensures found.Some? ==> found.value in wildcard && Ready(Abs(), Entry(found.value, true), key)
      ensures found == None ==> forall j :: 0 <= j < |order| ==> !Ready(Abs(), Entry(order[j], true), key)
    {
      hide Glob.Means;
      var i := 0;
      while i < |order|
        invariant 0 <= i <= |order|
        invariant FirstReady(Abs(), key, order) == FirstReady(Abs(), key, order[i..])
        invariant forall j :: 0 <= j < i ==> !Ready(Abs(), Entry(order[j], true), key)
      {
        var k := order[i];
        if k.ns == key.ns && k.queue == key.queue {
          var ok := Glob.Match(k.group, key.group);
          if ok && wildcard[k].conns != [] {
            assert Ready(Abs(), Entry(k, true), key);
            return Some(k);
          }
        }
        i := i + 1;
      }
      found := None;
    }

    /** has: the exact list, else the patterns in whatever order. */
    method HasAny(key: Key, order: seq<Key>) returns (found: bool)
      requires Orders(order, wildcard)
      ensures found <==> Has(Abs(), key)
    {
      hide Covers, Orders;
      if key in exact && exact[key].conns != [] {
        assert Ready(Abs(), Entry(key, false), key);
        return true;
      }
      var pattern := FindPattern(key, order);
      if pattern == None {
        NobodyReady(Abs(), key, order);
      }
      found := pattern.Some?;
    }

    /** next: a connection is found exactly when the registry has one.  It is the one
        in the current slot of a list that is ready for the group, the exact one if
        there is one, else that of the first ready pattern, and only that list's counter
        moves. */
    method Next(key: Key, order: seq<Key>) returns (c: Option<Conn>, ghost e: Entry)
      requires Orders(order, wildcard)
      modifies this`exact, this`wildcard
      ensures c.Some? <==> Has(old(Abs()), key)
      ensures c == None ==> Abs() == old(Abs())
      ensures Chosen(old(Abs()), key, order) == if c.Some? then Some(e) else None
      ensures c.Some? ==>
                && Ready(old(Abs()), e, key)
                && (Ready(old(Abs()), Entry(key, false), key) ==> e == Entry(key, false))
                && var l := ListAt(old(Abs()), e);
                   c.value == l.conns[Slot(l)] && Abs() == Took(old(Abs()), e)
    {
      hide Covers, Orders, Slot;
      e := Entry(key, false);
      if key in exact && exact[key].conns != [] {
        assert Ready(Abs(), e, key);
        var l := exact[key];
        exact := exact[key := Advance(l)];
        c := Some(l.conns[Slot(l)]);
        return;
      }
      var found := FindPattern(key, order);
      if found == None {
        NobodyReady(Abs(), key, order);
        return None, e;
      }
      e := Entry(found.value, true);
      var l := wildcard[found.value];
      wildcard := wildcard[found.value := Advance(l)];
      c := Some(l.conns[Slot(l)]);
    }
  }

  // ---------------------------------------------------------------------------
  // Whether the order of the patterns matters
  // ---------------------------------------------------------------------------

  lemma {:induction false} FirstReadyIs(r: Reg, key: Key, order: seq<Key>)
    ensures match FirstReady(r, key, order)
            case None => forall k <- order :: !Ready(r, Entry(k, true), key)
            case Some(e) => e.wildcard && e.key in order && Ready(r, e, key)
  {
    hide Ready;
    if order != [] {
      FirstReadyIs(r, key, order[1..]);
      assert order == [order[0]] + order[1..];
    }
  }

  /** At most one pattern has a connection for the group. */
  ghost predicate OneReady(r: Reg, key: Key) {
    forall k, l :: Ready(r, Entry(k, true), key) && Ready(r, Entry(l, true), key) ==> k == l
  }

  ghost predicate OrderIsFree(r: Reg, key: Key) {
    forall a, b :: Orders(a, r.wildcard) && Orders(b, r.wildcard) ==> Chosen(r, key, a) == Chosen(r, key, b)
  }

  lemma {:induction false} SomeOrder(ks: set<Key>) returns (order: seq<Key>)
    ensures (forall k <- ks :: k in order) && (forall k <- order :: k in ks)
    ensures forall i, j | 0 <= i < j < |order| :: order[i] != order[j]
  {
    if ks == {} {
      order := [];
    } else {
      var k :| k in ks;
      var rest := SomeOrder(ks - {k});
      order := [k] + rest;
    }
  }

  lemma OrderFrom(r: Reg, k: Key) returns (order: seq<Key>)
    requires k in r.wildcard
    ensures Orders(order, r.wildcard) && order != [] && order[0] == k
  {
    var rest := SomeOrder(r.wildcard.Keys - {k});
    order := [k] + rest;
  }

  /** The list next takes from does not depend on the order in which the patterns are
      gone through, if and only if the group has an exact subscriber or at most one
      pattern has one. */
  lemma OrderIsFreeIff(r: Reg, key: Key)
    ensures OrderIsFree(r, key) <==> Ready(r, Entry(key, false), key) || OneReady(r, key)
  {
    hide Orders;
    if Ready(r, Entry(key, false), key) {
    } else if OneReady(r, key) {
      hide Ready;
      forall a, b | Orders(a, r.wildcard) && Orders(b, r.wildcard)
        ensures Chosen(r, key, a) == Chosen(r, key, b)
      {
        SameChoice(r, key, a, b);
      }
    } else {
      var k, l :| Ready(r, Entry(k, true), key) && Ready(r, Entry(l, true), key) && k != l;
      var a := OrderFrom(r, k);
      var b := OrderFrom(r, l);
      assert Chosen(r, key, a) == Some(Entry(k, true)) != Chosen(r, key, b);
    }
  }

  lemma SameChoice(r: Reg, key: Key, a: seq<Key>, b: seq<Key>)
    requires Orders(a, r.wildcard) && Orders(b, r.wildcard) && OneReady(r, key)
    ensures FirstReady(r, key, a) == FirstReady(r, key, b)
  {
    hide Ready, FirstReady;
    FirstReadyIs(r, key, a);
    FirstReadyIs(r, key, b);
    var x, y := FirstReady(r, key, a), FirstReady(r, key, b);
    if x.Some? {
      assert x.value == Entry(x.value.key, true) && x.value.key in b;
    }
    if y.Some? {
      assert y.value == Entry(y.value.key, true) && y.value.key in a;
    }
  }

  /** A key of the queue "q". */
  function InQueue(ns: Bytes, group: Bytes): Key {
    Key(ns, ['q' as Byte], group)
  }

  const LETTER: Bytes := ['a' as Byte]
  const ANY: Bytes := [Glob.STAR]
  const PREFIXED: Bytes := ['a' as Byte, Glob.STAR]

  /** The registry once one connection has subscribed to `*` and another to `a*`. */
  function TwoPatterns(ns: Bytes, c: Conn, d: Conn): Reg {
    Run(EMPTY, [Subscribes(InQueue(ns, ANY), c), Subscribes(InQueue(ns, PREFIXED), d)])
  }

  lemma PatternsMeet()
    ensures Glob.Means(ANY, LETTER) && Glob.Means(PREFIXED, LETTER)
    ensures Glob.IsPattern(ANY) && Glob.IsPattern(PREFIXED) && !Glob.IsPattern(LETTER)
    ensures forall name <- [ANY, PREFIXED, LETTER, ['q' as Byte]] :: ValidIdent(name)
  {
    assert Glob.STAR in ANY && Glob.STAR in PREFIXED;
    assert Glob.Joined([]) == [];
    assert Glob.Joined([LETTER]) == LETTER && Glob.Fits(ANY, [LETTER]);
    assert Glob.Joined([LETTER, []]) == LETTER && Glob.Fits(PREFIXED, [LETTER, []]) by {
      assert [LETTER, []][1..] == [[]];
      assert Glob.Joined([[]]) == [];
    }
  }

  lemma TwoPatternsAre(ns: Bytes, c: Conn, d: Conn)
    ensures var r := TwoPatterns(ns, c, d);
            && r.exact == map[]
            && r.wildcard == map[InQueue(ns, ANY) := List([c], 0), InQueue(ns, PREFIXED) := List([d], 0)]
  {
    PatternsMeet();
    hide Glob.IsPattern, Glob.Means;
    var star, pre := InQueue(ns, ANY), InQueue(ns, PREFIXED);
    var ops := [Subscribes(star, c), Subscribes(pre, d)];
    var one := Apply(EMPTY, ops[0]);
    assert EntryFor(star) == Entry(star, true) && EntryFor(pre) == Entry(pre, true);
    assert [] + [c] == [c] && [] + [d] == [d];
    assert one.wildcard == map[star := List([c], 0)] && one.exact == map[];
    assert star.group != pre.group;
    var two := Apply(one, ops[1]);
    assert two.wildcard == one.wildcard[pre := List([d], 0)];
    assert ops[1..] == [Subscribes(pre, d)] && ops[1..][1..] == [];
    assert Run(EMPTY, ops) == Run(one, ops[1..]) == two;
  }

  /** One connection subscribes to `*`, another to `a*`, by names the wire lets through:
      which of the two gets the message of group "a" is a matter of the order. */
  lemma OrderDecides(ns: Bytes, c: Conn, d: Conn)
    ensures var star, pre, r := InQueue(ns, ANY), InQueue(ns, PREFIXED), TwoPatterns(ns, c, d);
            var key := InQueue(ns, LETTER);
            && (forall k <- [star, pre, key] :: ValidIdent(k.queue) && ValidIdent(k.group))
            && Orders([star, pre], r.wildcard) && Orders([pre, star], r.wildcard)
            && Chosen(r, key, [star, pre]) == Some(Entry(star, true)) && ListAt(r, Entry(star, true)).conns == [c]
            && Chosen(r, key, [pre, star]) == Some(Entry(pre, true)) && ListAt(r, Entry(pre, true)).conns == [d]
  {
    hide Glob.IsPattern, Glob.Means, TwoPatterns, ValidIdent;
    PatternsMeet();
    TwoPatternsAre(ns, c, d);
  }

  lemma NobodyReady(r: Reg, key: Key, order: seq<Key>)
    requires Orders(order, r.wildcard)
    requires key in r.exact ==> r.exact[key].conns == []
    requires forall j :: 0 <= j < |order| ==> !Ready(r, Entry(order[j], true), key)
    ensures !Has(r, key)
  {
    forall e ensures !Ready(r, e, key) {
      if e.wildcard && e.key in r.wildcard {
        assert e.key in order;
        var j :| 0 <= j < |order| && order[j] == e.key;
        assert e == Entry(order[j], true);
      }
    }
  }

  // ---------------------------------------------------------------------------
  // Round robin
  // ---------------------------------------------------------------------------

  /** The counter after j steps, for c below 2^64 and j at most 2^64. */
  function Counter(c: nat, j: nat): nat {
    if c + j < TWO64 then c + j else c + j - TWO64
  }

  /** The slot the (j+1)-th call of next uses on an unchanged list of n entries, with
      the counter at c before the first. */
  function SlotAt(c: nat, j: nat, n: nat): nat
    requires n > 0
  {
    Rem(Counter(c, j), n)
  }

  function Advanced(l: List, j: nat): List {
    if j == 0 then l else Advance(Advanced(l, j - 1))
  }

  lemma {:induction false} CallsUseSlots(l: List, j: nat)
    requires l.conns != [] && l.cursor < TWO64 && j <= TWO64
    ensures Advanced(l, j).conns == l.conns && Advanced(l, j).cursor == Counter(l.cursor, j)
    ensures Slot(Advanced(l, j)) == SlotAt(l.cursor, j, |l.conns|)
  {
    if j > 0 {
      hide Rem;
      CallsUseSlots(l, j - 1);
    }
  }

  predicate NoSlotTwice(c: nat, n: nat)
    requires n > 0
  {
    forall i, j | 0 <= i < j < n :: SlotAt(c, i, n) != SlotAt(c, j, n)
  }

  ghost predicate Visited(c: nat, s: nat, n: nat)
    requires n > 0
  {
    exists j: nat :: j < n && SlotAt(c, j, n) == s
  }

  /** While the counter does not wrap, or if it wraps evenly, slots go by residues. */
  lemma PlainSlot(c: nat, j: nat, n: nat)
    requires n > 0 && c < TWO64 && j < n <= TWO64
    requires c + n <= TWO64 || Rem(TWO64, n) == 0
    ensures SlotAt(c, j, n) == Rem(c + j, n)
  {
    hide Rem, Times;
    if c + j >= TWO64 {
      var q := Divide(TWO64, n);
      RemShift(c + j - TWO64, n, q);
    }
  }

  /** A counter that wraps inside the round, unevenly, uses some slot twice. */
  lemma WrapRepeats(c: nat, n: nat)
    requires 0 < n <= TWO64 && c < TWO64 < c + n && Rem(TWO64, n) != 0
    ensures !NoSlotTwice(c, n)
  {
    hide Rem, Times;
    var r, m := Rem(TWO64, n), TWO64 - c;
    var q := Divide(TWO64, n);
    if m >= r {
      RemIs(TWO64 - r, n, q, 0);
      RemSmall(0, n);
      assert SlotAt(c, m - r, n) == 0 == SlotAt(c, m, n);
    } else {
      RemIs(c, n, q, r - m);
      RemSmall(r - m, n);
      assert SlotAt(c, 0, n) == r - m == SlotAt(c, r, n);
    }
  }

  lemma RemSmall(x: nat, n: nat)
    requires x < n
    ensures Rem(x, n) == x
  {
  }

  lemma SlotReached(c: nat, s: nat, n: nat)
    requires 0 < n <= TWO64 && c < TWO64 && s < n
    requires c + n <= TWO64 || Rem(TWO64, n) == 0
    ensures Visited(c, s, n)
  {
    hide Rem, SlotAt;
    var r := Rem(c, n);
    var j := if s >= r then s - r else s + n - r;
    PlainSlot(c, j, n);
    RemMoves(c, j, n);
    assert SlotAt(c, j, n) == s;
  }

  /** n calls of next on an unchanged list of n entries use no slot twice, and so each
      exactly once, if and only if the 64-bit counter does not wrap meanwhile or the
      number of entries divides 2^64. */
  lemma EachSlotOnceIff(c: nat, n: nat)
    requires 0 < n <= TWO64 && c < TWO64
    ensures NoSlotTwice(c, n) <==> (c + n <= TWO64 || Rem(TWO64, n) == 0)
    ensures NoSlotTwice(c, n) ==> forall s: nat | s < n :: Visited(c, s, n)
  {
    hide SlotAt, Rem;
    if c + n <= TWO64 || Rem(TWO64, n) == 0 {
      forall i, j | 0 <= i < j < n ensures SlotAt(c, i, n) != SlotAt(c, j, n) {
        PlainSlot(c, i, n);
        PlainSlot(c, j, n);
        RemMoves(c + i, j - i, n);
      }
      forall s: nat | s < n ensures Visited(c, s, n) {
        SlotReached(c, s, n);
      }
    } else {
      WrapRepeats(c, n);
    }
  }

  /** Three connections, the counter about to wrap: the first gets two messages running. */
  lemma ThreeStutter()
    ensures SlotAt(TWO64 - 1, 0, 3) == SlotAt(TWO64 - 1, 1, 3) == 0 && !NoSlotTwice(TWO64 - 1, 3)
  {
    RemIs(TWO64 - 1, 3, 0x5555_5555_5555_5555, 0);
    RemSmall(0, 3);
    assert SlotAt(TWO64 - 1, 0, 3) == 0 == SlotAt(TWO64 - 1, 1, 3);
  }
}
