/** Messages and the retry order. */
module Messages {
  import opened Bytes

  datatype MessageState = Pending | Processing | Done | Failed | DLQ

  /** A message as the queue engine changes it; its queue, namespace, group and
      creation time are fixed at publication and are not carried here. */
  datatype Message = Message(
    id: Bytes,
    payload: Bytes,
    state: MessageState,
    attempts: nat,
    scheduledAt: int,       // retry time while delayed, lease deadline while processing
    lastError: Bytes
  )

  function NewMessage(id: Bytes, payload: Bytes, now: int): Message {
    Message(id, payload, Pending, 0, now, [])
  }

  function Ids(ms: seq<Message>): (s: seq<Bytes>)
    ensures |s| == |ms|
    ensures forall i :: 0 <= i < |ms| ==> s[i] == ms[i].id
  {
    seq(|ms|, i requires 0 <= i < |ms| => ms[i].id)
  }

  ghost predicate DistinctIds(ms: seq<Message>) {
    forall i, j :: 0 <= i < j < |ms| ==> ms[i].id != ms[j].id
  }

  // ---------------------------------------------------------------------------
  // The order of the retry heap: by time, ties by id
  // ---------------------------------------------------------------------------

  predicate Before(a: Message, b: Message) {
    a.scheduledAt < b.scheduledAt || (a.scheduledAt == b.scheduledAt && Less(a.id, b.id))
  }

  predicate NotAfter(a: Message, b: Message) {
    !Before(b, a)
  }

  lemma BeforeAsymmetric(a: Message, b: Message)
    ensures Before(a, b) ==> NotAfter(a, b)
    ensures NotAfter(a, a)
    ensures NotAfter(a, b) && a.id != b.id ==> Before(a, b)
  {
    hide Less;
    LessTotal(a.id, b.id);
    LessTotal(a.id, a.id);
  }

  lemma NotAfterTransitive(a: Message, b: Message, c: Message)
    requires NotAfter(a, b) && NotAfter(b, c)
    ensures NotAfter(a, c)
  {
    hide Less;
    LessTotal(a.id, b.id);
    LessTotal(b.id, c.id);
    LessTotal(a.id, c.id);
    if Less(a.id, b.id) && Less(b.id, c.id) {
      LessTransitive(a.id, b.id, c.id);
    }
    if Less(c.id, a.id) && a.scheduledAt == c.scheduledAt {
      if Less(a.id, b.id) { LessTransitive(c.id, a.id, b.id); LessTotal(c.id, b.id); }
    }
  }

  lemma BeforeTransitive(a: Message, b: Message, c: Message)
    requires Before(a, b) && Before(b, c)
    ensures Before(a, c)
  {
    hide Less;
    if a.scheduledAt == b.scheduledAt == c.scheduledAt {
      LessTransitive(a.id, b.id, c.id);
    }
  }

  /** Strictly ascending: earlier entries come strictly before later ones. */
  ghost predicate Ascending(ms: seq<Message>) {
    forall i, j :: 0 <= i < j < |ms| ==> Before(ms[i], ms[j])
  }

  /** The message put in its place. */
  function Insert(ms: seq<Message>, m: Message): (r: seq<Message>)
    ensures |r| == |ms| + 1
  {
    if ms == [] then [m]
    else if Before(m, ms[0]) then [m] + ms
    else [ms[0]] + Insert(ms[1..], m)
  }

  lemma {:induction false} InsertMultiset(ms: seq<Message>, m: Message)
    ensures multiset(Insert(ms, m)) == multiset(ms) + multiset{m}
  {
    hide Before;
    if ms != [] && !Before(m, ms[0]) {
      InsertMultiset(ms[1..], m);
      assert ms == [ms[0]] + ms[1..];
    }
  }

  lemma InsertIn(ms: seq<Message>, m: Message)
    ensures forall x :: x in Insert(ms, m) <==> x in ms || x == m
  {
    InsertMultiset(ms, m);
    assert forall x :: x in Insert(ms, m) <==> x in multiset(Insert(ms, m));
    assert forall x :: x in ms <==> x in multiset(ms);
  }

  lemma AscendingCons(m: Message, ms: seq<Message>)
    requires Ascending(ms) && forall x :: x in ms ==> Before(m, x)
    ensures Ascending([m] + ms)
  {
    hide Before;
  }

  lemma AscendingTail(ms: seq<Message>)
    requires Ascending(ms) && ms != []
    ensures Ascending(ms[1..]) && forall x :: x in ms[1..] ==> Before(ms[0], x)
  {
    hide Before;
  }

  lemma {:induction false} InsertAscending(ms: seq<Message>, m: Message)
    requires Ascending(ms) && forall x :: x in ms ==> x.id != m.id
    ensures Ascending(Insert(ms, m))
  {
    hide Before;
    if ms == [] {
    } else if Before(m, ms[0]) {
      AscendingTail(ms);
      forall x | x in ms ensures Before(m, x) {
        if x != ms[0] {
          assert x in ms[1..];
          BeforeTransitive(m, ms[0], x);
        }
      }
      AscendingCons(m, ms);
    } else {
      AscendingTail(ms);
      InsertAscending(ms[1..], m);
      InsertIn(ms[1..], m);
      BeforeAsymmetric(ms[0], m);
      assert NotAfter(ms[0], m);
      AscendingCons(ms[0], Insert(ms[1..], m));
    }
  }

  lemma InTail(a: seq<Message>, x: Message)
    requires a != [] && x in multiset(a) && x != a[0]
    ensures x in a[1..]
  {
    assert a == [a[0]] + a[1..];
  }

  /** Two ascending lists of the same messages begin with the same one. */
  lemma SameLeast(a: seq<Message>, b: seq<Message>)
    requires a != [] && b != [] && Ascending(a) && Ascending(b) && multiset(a) == multiset(b)
    ensures a[0] == b[0]
  {
    hide Before;
    assert a[0] in multiset(a) && b[0] in multiset(b);
    if a[0] != b[0] {
      InTail(b, a[0]);
      InTail(a, b[0]);
      BeforeAsymmetric(a[0], b[0]);
      assert false;
    }
  }

  /** An ascending list is determined by its contents. */
  lemma {:induction false} AscendingUnique(a: seq<Message>, b: seq<Message>)
    requires Ascending(a) && Ascending(b) && multiset(a) == multiset(b)
    ensures a == b
  {
    hide Before;
    if a == [] || b == [] {
      assert |multiset(a)| == |multiset(b)|;
    } else {
      AscendingTail(a);
      AscendingTail(b);
      SameLeast(a, b);
      assert a == [a[0]] + a[1..] && b == [b[0]] + b[1..];
      assert multiset(a[1..]) == multiset(a) - multiset{a[0]};
      assert multiset(b[1..]) == multiset(b) - multiset{b[0]};
      AscendingUnique(a[1..], b[1..]);
    }
  }
}
