/** Who receives a group's messages: exact and pattern subscriptions, with round robin
    inside each list of connections. */
module Registry {
  import opened Bytes
  import opened Glob
  import opened Modular

  type Conn = nat

  datatype Key = Key(ns: Bytes, queue: Bytes, group: Bytes)

  /** The connections of a subscription and the round-robin counter (64 bits). */
  datatype List = List(conns: seq<Conn>, cursor: nat)

  /** A connection's record of one subscription. */
  datatype Entry = Entry(key: Key, wildcard: bool)

  datatype Reg = Reg(exact: map<Key, List>, wildcard: map<Key, List>, subs: map<Conn, seq<Entry>>)

  const EMPTY := Reg(map[], map[], map[])

  function Side(r: Reg, wildcard: bool): map<Key, List> {
    if wildcard then r.wildcard else r.exact
  }

  function SetSide(r: Reg, wildcard: bool, m: map<Key, List>): Reg {
    if wildcard then r.(wildcard := m) else r.(exact := m)
  }

  function EntryFor(key: Key): Entry {
    Entry(key, IsPattern(key.group))
  }

  function ListAt(r: Reg, e: Entry): List {
    if e.key in Side(r, e.wildcard) then Side(r, e.wildcard)[e.key] else List([], 0)
  }

  function EntriesOf(r: Reg, c: Conn): seq<Entry> {
    if c in r.subs then r.subs[c] else []
  }

  /** add: append to the list of the key, and record the entry. */
  function Add(r: Reg, key: Key, c: Conn): Reg {
    var e := EntryFor(key);
    var l := ListAt(r, e);
    SetSide(r, e.wildcard, Side(r, e.wildcard)[key := l.(conns := l.conns + [c])])
      .(subs := r.subs[c := EntriesOf(r, c) + [e]])
  }

  /** The list without the first occurrence of c. */
  function Without(conns: seq<Conn>, c: Conn): seq<Conn> {
    if conns == [] then []
    else if conns[0] == c then conns[1..]
    else [conns[0]] + Without(conns[1..], c)
  }

  /** One round of remove's loop: take c out of the entry's list, and the list out of
      the map if that empties it. */
  function DropEntry(r: Reg, e: Entry, c: Conn): Reg {
    var side := Side(r, e.wildcard);
    if e.key !in side then r
    else
      var left := Without(side[e.key].conns, c);
      SetSide(r, e.wildcard,
              if left == [] then side - {e.key} else side[e.key := side[e.key].(conns := left)])
  }

  function DropEntries(r: Reg, es: seq<Entry>, c: Conn): Reg {
    if es == [] then r else DropEntry(DropEntries(r, es[..|es| - 1], c), es[|es| - 1], c)
  }

  function Remove(r: Reg, c: Conn): Reg {
    DropEntries(r.(subs := r.subs - {c}), EntriesOf(r, c), c)
  }

  // ---------------------------------------------------------------------------
  // Lists agree with the records
  // ---------------------------------------------------------------------------

  /** How often c stands in the list of a subscription. */
  function Count(r: Reg, e: Entry, c: Conn): nat {
    multiset(ListAt(r, e).conns)[c]
  }

  function Recorded(r: Reg, e: Entry, c: Conn): nat {
    multiset(EntriesOf(r, c))[e]
  }

  /** No list in the maps is empty. */
  ghost predicate NoEmptyList(r: Reg) {
    (forall k <- r.exact :: r.exact[k].conns != []) && (forall k <- r.wildcard :: r.wildcard[k].conns != [])
  }

  ghost predicate Agrees(r: Reg) {
    forall e, c :: Count(r, e, c) == Recorded(r, e, c)
  }

  lemma AddCounts(r: Reg, key: Key, c: Conn, e: Entry, d: Conn)
    ensures Count(Add(r, key, c), e, d)
         == Count(r, e, d) + if e == EntryFor(key) && d == c then 1 else 0
  {
    hide IsPattern, EntriesOf;
  }

  lemma AddRecords(r: Reg, key: Key, c: Conn, e: Entry, d: Conn)
    ensures Recorded(Add(r, key, c), e, d)
         == Recorded(r, e, d) + if e == EntryFor(key) && d == c then 1 else 0
  {
    hide EntryFor, ListAt, Side;
  }

  lemma {:induction false} WithoutFirst(conns: seq<Conn>, c: Conn, i: nat)
    requires i <= |conns| && c !in conns[..i] && (i < |conns| ==> conns[i] == c)
    ensures Without(conns, c) == if i < |conns| then conns[..i] + conns[i + 1..] else conns
  {
    if 0 < i {
      var rest := conns[1..];
      assert conns[..i] == [conns[0]] + rest[..i - 1];
      WithoutFirst(rest, c, i - 1);
      assert Without(conns, c) == [conns[0]] + Without(rest, c);
    }
  }

  lemma {:induction false} WithoutCounts(conns: seq<Conn>, c: Conn, d: Conn)
    ensures multiset(Without(conns, c))[d]
         == multiset(conns)[d] - if d == c && c in conns then 1 else 0
  {
    if conns != [] {
      assert conns == [conns[0]] + conns[1..];
      WithoutCounts(conns[1..], c, d);
    }
  }

  lemma DropEntryCounts(r: Reg, e: Entry, c: Conn, f: Entry, d: Conn)
    ensures Count(DropEntry(r, e, c), f, d)
         == Count(r, f, d) - if f == e && d == c && Count(r, f, d) > 0 then 1 else 0
    ensures DropEntry(r, e, c).subs == r.subs
  {
    hide Without;
    var conns := ListAt(r, e).conns;
    WithoutCounts(conns, c, d);
    if Without(conns, c) == [] {
      assert multiset(Without(conns, c))[d] == 0;
    }
  }

  lemma {:induction false} DropEntriesCounts(r: Reg, es: seq<Entry>, c: Conn, f: Entry, d: Conn)
    ensures Count(DropEntries(r, es, c), f, d)
         == if d != c then Count(r, f, d)
            else if Count(r, f, d) >= multiset(es)[f] then Count(r, f, d) - multiset(es)[f]
            else 0
    ensures DropEntries(r, es, c).subs == r.subs
  {
    hide Count, DropEntry;
    if es != [] {
      var front, e := es[..|es| - 1], es[|es| - 1];
      assert es == front + [e];
      DropEntriesCounts(r, front, c, f, d);
      DropEntryCounts(DropEntries(r, front, c), e, c, f, d);
    }
  }

  /** Subscribing keeps the lists equal to the records. */
  lemma AddAgrees(r: Reg, key: Key, c: Conn)
    requires Agrees(r)
    ensures Agrees(Add(r, key, c))
  {
    hide Count, Recorded, Add;
    forall e, d ensures Count(Add(r, key, c), e, d) == Recorded(Add(r, key, c), e, d) {
      AddCounts(r, key, c, e, d);
      AddRecords(r, key, c, e, d);
      assert Count(r, e, d) == Recorded(r, e, d);
    }
  }

  /** Closing a connection takes it out of every list, leaves every other connection
      where it was, and keeps lists and records in agreement. */
  lemma RemoveClears(r: Reg, c: Conn)
    requires Agrees(r)
    ensures Agrees(Remove(r, c))
    ensures forall e :: Count(Remove(r, c), e, c) == 0
    ensures forall e, d | d != c :: Count(Remove(r, c), e, d) == Count(r, e, d)
  {
    hide DropEntries;
    var r' := Remove(r, c);
    var r0 := r.(subs := r.subs - {c});
    forall e, d
      ensures Count(r', e, d) == (if d == c then 0 else Count(r, e, d))
      ensures Count(r', e, d) == Recorded(r', e, d)
    {
      DropEntriesCounts(r0, EntriesOf(r, c), c, e, d);
      assert Count(r, e, d) == Recorded(r, e, d);
    }
  }

  lemma AddNoEmptyList(r: Reg, key: Key, c: Conn)
    requires NoEmptyList(r)
    ensures NoEmptyList(Add(r, key, c))
  {
  }

  lemma {:induction false} RemoveNoEmptyList(r: Reg, es: seq<Entry>, c: Conn)
    requires NoEmptyList(r)
    ensures NoEmptyList(DropEntries(r, es, c))
  {
    hide Without;
    if es != [] {
      RemoveNoEmptyList(r, es[..|es| - 1], c);
    }
  }

  // ---------------------------------------------------------------------------
  // Who is next
  // ---------------------------------------------------------------------------

  /** subList.next: the slot of the counter, which then moves on, wrapping at 2^64. */
  function Slot(l: List): (s: nat)
    requires l.conns != []
    ensures s < |l.conns|
  {
    Rem(l.cursor, |l.conns|)
  }

  function Advance(l: List): List {
    l.(cursor := if l.cursor + 1 == TWO64 then 0 else l.cursor + 1)
  }

  /** The pattern subscription would receive the group's messages. */
  ghost predicate Covers(pattern: Key, key: Key) {
    pattern.ns == key.ns && pattern.queue == key.queue && Means(pattern.group, key.group)
  }

  ghost predicate Ready(r: Reg, e: Entry, key: Key) {
    ListAt(r, e).conns != [] && if e.wildcard then Covers(e.key, key) else e.key == key
  }

  /** Somebody is subscribed to the group, by name or by pattern. */
  ghost predicate Has(r: Reg, key: Key) {
    exists e: Entry :: Ready(r, e, key)
  }

  /** The order in which the pattern map is gone through: any, each key once. */
  ghost predicate Orders(order: seq<Key>, m: map<Key, List>) {
    (forall k <- m :: k in order) && (forall k <- order :: k in m)
    && forall i, j | 0 <= i < j < |order| :: order[i] != order[j]
  }

  /** The first pattern in the order that has a connection for the group. */
  ghost function FirstReady(r: Reg, key: Key, order: seq<Key>): Option<Entry> {
    if order == [] then None
    else if Ready(r, Entry(order[0], true), key) then Some(Entry(order[0], true))
    else FirstReady(r, key, order[1..])
  }

  /** The list next takes from: the exact one, else the first ready pattern. */
  ghost function Chosen(r: Reg, key: Key, order: seq<Key>): Option<Entry> {
    if Ready(r, Entry(key, false), key) then Some(Entry(key, false)) else FirstReady(r, key, order)
  }

  /** The registry after next took from the list of e. */
  function Took(r: Reg, e: Entry): Reg {
    SetSide(r, e.wildcard, Side(r, e.wildcard)[e.key := Advance(ListAt(r, e))])
  }

  /** Taking only moves a counter. */
  lemma TookCounts(r: Reg, e: Entry, f: Entry, d: Conn)
    ensures Count(Took(r, e), f, d) == Count(r, f, d) && Recorded(Took(r, e), f, d) == Recorded(r, f, d)
  {
  }

  // ---------------------------------------------------------------------------
  // Every sequential run
  // ---------------------------------------------------------------------------

  datatype Op = Subscribes(key: Key, conn: Conn) | Closes(conn: Conn) | Takes(entry: Entry)

  function Apply(r: Reg, op: Op): Reg {
    match op
    case Subscribes(key, c) => Add(r, key, c)
    case Closes(c) => Remove(r, c)
    case Takes(e) => if ListAt(r, e).conns != [] then Took(r, e) else r
  }

  function Run(r: Reg, ops: seq<Op>): Reg
    decreases |ops|
  {
    if ops == [] then r else Run(Apply(r, ops[0]), ops[1..])
  }

  lemma ApplyKeeps(r: Reg, op: Op)
    requires Agrees(r) && NoEmptyList(r)
    ensures Agrees(Apply(r, op)) && NoEmptyList(Apply(r, op))
  {
    hide Add, DropEntries, Count, Recorded;
    match op
    case Subscribes(key, c) =>
      AddAgrees(r, key, c);
      AddNoEmptyList(r, key, c);
    case Closes(c) =>
      RemoveClears(r, c);
      RemoveNoEmptyList(r.(subs := r.subs - {c}), EntriesOf(r, c), c);
    case Takes(e) =>
      forall f, d ensures Count(Apply(r, op), f, d) == Recorded(Apply(r, op), f, d) {
        TookCounts(r, e, f, d);
        assert Count(r, f, d) == Recorded(r, f, d);
      }
  }

  /** In every sequential run, a connection stands in each list exactly as often as it
      is recorded to, and the maps hold no empty list. */
  lemma {:induction false} RunKeeps(r: Reg, ops: seq<Op>)
    requires Agrees(r) && NoEmptyList(r)
    ensures Agrees(Run(r, ops)) && NoEmptyList(Run(r, ops))
    decreases |ops|
  {
    hide Agrees, NoEmptyList, Apply;
    if ops != [] {
      ApplyKeeps(r, ops[0]);
      RunKeeps(Apply(r, ops[0]), ops[1..]);
    }
  }

  lemma EmptyAgrees()
    ensures Agrees(EMPTY) && NoEmptyList(EMPTY)
  {
  }

  /** Whatever was subscribed, closed and delivered before, a closed connection stands
      in no list any more, and every other one stands where it stood. */
  lemma ClosedConnectionIsGone(ops: seq<Op>, c: Conn)
    ensures var r := Run(EMPTY, ops);
            var closed := Apply(r, Closes(c));
            Agrees(closed)
            && (forall e :: Count(closed, e, c) == 0)
            && (forall e, d | d != c :: Count(closed, e, d) == Count(r, e, d) == Recorded(r, e, d))
  {
    hide Run, Count, Recorded, Remove, Add, Took;
    EmptyAgrees();
    RunKeeps(EMPTY, ops);
    RemoveClears(Run(EMPTY, ops), c);
  }
}
