/** A consumer group as a value, and each engine operation as a function on it.
    Every operation of the source runs under one lock, so each is one atomic step. */
module GroupSpec {
  import opened Bytes
  import opened Messages
  import opened RateLimiter

  // ---------------------------------------------------------------------------
  // Configuration
  // ---------------------------------------------------------------------------

  datatype Backoff = Exponential | Linear | Fixed

  datatype Config = Config(
    parallelism: int,
    quantum: int,
    leaseTimeout: int,
    maxAttempts: int,
    backoff: Backoff,
    initialDelay: Int64,
    maxDelay: Int64,
    dlq: bool,
    maxPending: int
  )

  /** newGroup's defaults for values that were not set.  They make a configuration the
      engine can run exactly when the attempts are not negative, which nothing mends. */
  function WithDefaults(c: Config): (r: Config)
    ensures Usable(r) <==> c.maxAttempts >= 0
    ensures r.parallelism >= 1 && r.quantum >= 1 && r.maxAttempts != 0
  {
    c.(parallelism := if c.parallelism <= 0 then 1 else c.parallelism,
       quantum := if c.quantum <= 0 then 1 else c.quantum,
       maxAttempts := if c.maxAttempts == 0 then 3 else c.maxAttempts,
       initialDelay := if c.initialDelay == 0 then 1_000_000_000 else c.initialDelay,
       maxDelay := if c.maxDelay == 0 then 300_000_000_000 else c.maxDelay)
  }

  /** A configuration the engine can run: what WithDefaults gives, attempts positive. */
  predicate Usable(c: Config) {
    c.parallelism >= 1 && c.quantum >= 1 && c.maxAttempts >= 1
  }

  /** 64-bit wrap-around. */
  function Wrap64(v: int): Int64 {
    Signed64(v % TWO64)
  }

  function Pow2(n: nat): (p: nat)
    ensures p >= 1
  {
    if n == 0 then 1 else 2 * Pow2(n - 1)
  }

  /** The backoff before a given attempt, in the source's 64-bit arithmetic. */
  function RetryDelay(c: Config, attempt: nat): Int64 {
    var d := match c.backoff
      case Exponential => Wrap64(c.initialDelay * Wrap64(Pow2(attempt)))
      case Linear => Wrap64(c.initialDelay * Wrap64(attempt + 1))
      case Fixed => c.initialDelay;
    if d > c.maxDelay then c.maxDelay else d
  }

  // ---------------------------------------------------------------------------
  // State
  // ---------------------------------------------------------------------------

  /** Queue slots from the head on; None is a slot that replay has cleared. */
  type Slots = seq<Option<Message>>

  datatype Group = Group(
    urgent: Slots,                       // returned and expired messages, served first
    ready: Slots,                        // publication order
    delayed: seq<Message>,               // waiting for retry, in (time, id) order
    processing: map<Bytes, Message>,     // in flight, by id
    limiter: Option<Limiter>,
    deficit: int
  )

  function NewGroup(limiter: Option<Limiter>): Group {
    Group([], [], [], map[], limiter, 0)
  }

  function LiveSlots(s: Slots): seq<Message> {
    if s == [] then []
    else (if s[0].Some? then [s[0].value] else []) + LiveSlots(s[1..])
  }

  function SlotsOf(ms: seq<Message>): (s: Slots)
    ensures |s| == |ms| && forall i :: 0 <= i < |ms| ==> s[i] == Some(ms[i])
  {
    seq(|ms|, i requires 0 <= i < |ms| => Some(ms[i]))
  }

  /** The messages that can be dispatched now, in dispatch order. */
  function Backlog(g: Group): seq<Message> {
    LiveSlots(g.urgent) + LiveSlots(g.ready)
  }

  /** pendingCount: cleared slots count too. */
  function PendingCount(g: Group): nat {
    |g.urgent| + |g.ready| + |g.delayed|
  }

  // ---------------------------------------------------------------------------
  // Publication and settlement
  // ---------------------------------------------------------------------------

  predicate HasRoom(c: Config, g: Group) {
    !(c.maxPending > 0 && PendingCount(g) >= c.maxPending)
  }

  function Enqueue(g: Group, m: Message): Group {
    g.(ready := g.ready + [Some(m)])
  }

  function Complete(g: Group, id: Bytes): Group {
    g.(processing := g.processing - {id})
  }

  /** The message as it fails: one more attempt, the error noted. */
  function Attempted(m: Message, error: Bytes): Message {
    m.(lastError := error, attempts := m.attempts + 1)
  }

  predicate Retries(c: Config, m: Message) {
    m.attempts + 1 < c.maxAttempts
  }

  function Rescheduled(c: Config, m: Message, error: Bytes, now: int): Message {
    Attempted(m, error).(scheduledAt := now + RetryDelay(c, m.attempts + 1), state := Pending)
  }

  /** The message as it leaves the group for good. */
  function Exhausted(c: Config, m: Message, error: Bytes): Message {
    Attempted(m, error).(state := if c.dlq then DLQ else Failed)
  }

  function Fail(c: Config, g: Group, id: Bytes, error: Bytes, now: int): Group {
    if id !in g.processing then g
    else
      var m := g.processing[id];
      var out := g.(processing := g.processing - {id});
      if Retries(c, m) then out.(delayed := Insert(g.delayed, Rescheduled(c, m, error, now))) else out
  }

  function ReturnToPending(g: Group, id: Bytes): Group {
    if id !in g.processing then g
    else g.(processing := g.processing - {id},
            urgent := g.urgent + [Some(g.processing[id].(state := Pending))])
  }

  // ---------------------------------------------------------------------------
  // Lease expiry and promotion
  // ---------------------------------------------------------------------------

  /** Ids whose lease deadline has passed. */
  function Expired(g: Group, now: int): set<Bytes> {
    set id | id in g.processing && now > g.processing[id].scheduledAt
  }

  ghost predicate Lists(order: seq<Bytes>, ids: set<Bytes>) {
    (forall i, j :: 0 <= i < j < |order| ==> order[i] != order[j]) &&
    (forall id :: id in order <==> id in ids)
  }

  /** Returns the leases in the given order; map iteration may give any order. */
  function ReturnAll(g: Group, order: seq<Bytes>): Group {
    if order == [] then g
    else ReturnToPending(ReturnAll(g, order[..|order| - 1]), order[|order| - 1])
  }

  /** How many delayed messages are due: those not after now, in order. */
  function Due(delayed: seq<Message>, now: int): (n: nat)
    ensures n <= |delayed|
  {
    if delayed == [] || delayed[0].scheduledAt > now then 0 else 1 + Due(delayed[1..], now)
  }

  function PromoteDue(g: Group, now: int): Group {
    var n := Due(g.delayed, now);
    g.(ready := g.ready + SlotsOf(g.delayed[..n]), delayed := g.delayed[n..])
  }

  /** promoteDelayed: expired leases to the urgent list, due retries to the ready list. */
  function Promote(g: Group, now: int, order: seq<Bytes>): Group {
    PromoteDue(ReturnAll(g, order), now)
  }

  /** The times promoteDelayed may wake for: remaining leases and the next retry. */
  function WakeTimes(g: Group, now: int): set<int> {
    (set id | id in g.processing && !(now > g.processing[id].scheduledAt) :: g.processing[id].scheduledAt) +
    (var rest := g.delayed[Due(g.delayed, now)..];
     if rest == [] then {} else {rest[0].scheduledAt})
  }

  predicate IsEarliest(w: Option<int>, times: set<int>) {
    (w.None? ==> times == {}) &&
    (w.Some? ==> w.value in times && forall t :: t in times ==> w.value <= t)
  }

  function Earlier(a: Option<int>, t: int): Option<int> {
    if a.None? || t < a.value then Some(t) else a
  }

  // ---------------------------------------------------------------------------
  // Dispatch
  // ---------------------------------------------------------------------------

  /** The slots behind the first live one. */
  function Skip(s: Slots): (r: Slots)
    ensures |r| <= |s|
    ensures s != [] ==> |r| < |s|
  {
    if s == [] then [] else if s[0].Some? then s[1..] else Skip(s[1..])
  }

  function Lease(c: Config, m: Message, now: int): Message {
    m.(state := Processing, scheduledAt := now + c.leaseTimeout)
  }

  /** Takes the first message of the backlog into flight. */
  function DispatchOne(c: Config, g: Group, now: int): Group
    requires Backlog(g) != []
  {
    var m := Backlog(g)[0];
    var out := if LiveSlots(g.urgent) != [] then g.(urgent := Skip(g.urgent))
               else g.(urgent := [], ready := Skip(g.ready));
    out.(processing := g.processing[m.id := Lease(c, m, now)])
  }

  datatype Stop = Capacity | RateLimited | Empty

  /** Why nothing would be dispatched now, or None if something would. */
  function Blocked(c: Config, g: Group, now: int): Option<Stop> {
    if |g.processing| >= c.parallelism then Some(Capacity)
    else if g.limiter.Some? && !Allows(g.limiter.value, now) then Some(RateLimited)
    else if Backlog(g) == [] then Some(Empty)
    else None
  }

  /** The limiter is asked before the queues are looked at, so a token is spent even
      when there is nothing to send. */
  function AskLimiter(g: Group, now: int): Group {
    if g.limiter.None? then g else g.(limiter := Some(Called(g.limiter.value, now)))
  }

  function NextDispatchable(c: Config, g: Group, now: int): Group {
    match Blocked(c, g, now)
    case None => DispatchOne(c, AskLimiter(g, now), now)
    case Some(Capacity) => g
    case Some(RateLimited) => AskLimiter(g, now)
    case Some(Empty) => AskLimiter(g, now).(urgent := [], ready := [])
  }

  /** The message nextDispatchable hands out, if any. */
  function Sent(c: Config, g: Group, now: int): Option<Message> {
    if Blocked(c, g, now).None? then Some(Lease(c, Backlog(g)[0], now)) else None
  }

  /** The wake-up time reported with a stop reason. */
  function StopWake(g: Group, now: int, stop: Stop): Option<int> {
    match stop
    case Capacity => None
    case RateLimited =>
      if g.limiter.Some? && g.limiter.value.max >= 1 && !Allows(g.limiter.value, now)
      then Some(RetryAt(g.limiter.value, now)) else None
    case Empty => if g.delayed == [] then None else Some(g.delayed[0].scheduledAt)
  }

  function Dispatch(c: Config, g: Group, now: int, n: nat): Group
    requires n <= |Backlog(g)|
    decreases n
  {
    if n == 0 then g
    else
      BacklogAfterOne(c, g, now);
      Dispatch(c, DispatchOne(c, g, now), now, n - 1)
  }

  lemma {:induction false} SkipDropsFirst(s: Slots)
    requires LiveSlots(s) != []
    ensures LiveSlots(Skip(s)) == LiveSlots(s)[1..]
  {
    if s[0].None? {
      SkipDropsFirst(s[1..]);
    }
  }

  lemma BacklogAfterOne(c: Config, g: Group, now: int)
    requires Backlog(g) != []
    ensures Backlog(DispatchOne(c, g, now)) == Backlog(g)[1..]
  {
    if LiveSlots(g.urgent) != [] {
      SkipDropsFirst(g.urgent);
    } else {
      SkipDropsFirst(g.ready);
    }
  }

  // ---------------------------------------------------------------------------
  // The drain round, in closed form
  // ---------------------------------------------------------------------------

  function Room(c: Config, g: Group): nat {
    if |g.processing| >= c.parallelism then 0 else c.parallelism - |g.processing|
  }

  /** How many of the first n sends the limiter would let through. */
  function Permitted(g: Group, now: int, n: nat): nat {
    if g.limiter.None? then n else Min(n, Tokens(g.limiter.value, now))
  }

  function Credit(c: Config, g: Group): int {
    g.deficit + c.quantum
  }

  /** The batch: as much as credit, free parallelism, the limiter and the backlog allow. */
  function BatchSize(c: Config, g: Group, now: int): (k: nat)
    requires Credit(c, g) >= 0
    ensures k <= |Backlog(g)|
  {
    Permitted(g, now, Min(Min(Credit(c, g), Room(c, g)), |Backlog(g)|))
  }

  function Leased(c: Config, ms: seq<Message>, now: int): (r: seq<Message>)
    ensures |r| == |ms| && forall i :: 0 <= i < |ms| ==> r[i] == Lease(c, ms[i], now)
  {
    seq(|ms|, i requires 0 <= i < |ms| => Lease(c, ms[i], now))
  }

  /** What ended the round, None when the credit was spent. */
  function RoundStop(c: Config, g: Group, now: int): Option<Stop>
    requires Credit(c, g) >= 0
  {
    var k := BatchSize(c, g, now);
    if k == Credit(c, g) then None
    else if k == Room(c, g) then Some(Capacity)
    else if g.limiter.Some? && k == Tokens(g.limiter.value, now) then Some(RateLimited)
    else Some(Empty)
  }

  /** The group after a drain round that found something pending. */
  function Drained(c: Config, g: Group, now: int): Group
    requires Credit(c, g) >= 0
  {
    var k := BatchSize(c, g, now);
    var stop := RoundStop(c, g, now);
    var calls := if stop == Some(RateLimited) || stop == Some(Empty) then k + 1 else k;
    var sent := Dispatch(c, g, now, k).(
      deficit := Credit(c, g) - k,
      limiter := if g.limiter.None? then None else Some(CalledTimes(g.limiter.value, now, calls)));
    if stop == Some(Empty) then sent.(urgent := [], ready := []) else sent
  }

  datatype Round = Round(batch: Option<seq<Message>>, wakeAt: Option<int>, stillPending: bool)

  /** What the round reports, given the earliest wake time found while promoting. */
  function RoundReport(c: Config, g: Group, now: int, wake: Option<int>): Round
    requires Credit(c, g) >= 0 && (g.limiter.Some? ==> g.limiter.value.max >= 1)
  {
    if PendingCount(g) == 0 then Round(None, wake, false)
    else
      var k := BatchSize(c, g, now);
      var batch := Some(Leased(c, Backlog(g)[..k], now));
      match RoundStop(c, g, now)
      case None => Round(batch, wake, wake.None? && PendingCount(Drained(c, g, now)) > 0)
      case Some(Capacity) => Round(batch, wake, false)
      case Some(Empty) => Round(batch, wake, false)
      case Some(RateLimited) =>
        TokensRunOut(g.limiter.value, now, k);
        Round(batch, Earlier(wake, RetryAt(CalledTimes(g.limiter.value, now, k), now)), false)
  }

  lemma TokensRunOut(l: Limiter, now: int, k: nat)
    requires k == Tokens(l, now)
    ensures !Allows(CalledTimes(l, now, k), now) && CalledTimes(l, now, k).max == l.max
  {
    CallsTakeTokens(l, now, k);
    CallTakesToken(CalledTimes(l, now, k), now);
  }

  /** drainRound on a group already promoted. */
  function DrainRound(c: Config, g: Group, now: int): Group
    requires Credit(c, g) >= 0
  {
    if PendingCount(g) == 0 then g else Drained(c, g, now)
  }

  // ---------------------------------------------------------------------------
  // Replay operations
  // ---------------------------------------------------------------------------

  /** The first slot holding the message, or the length. */
  function Find(s: Slots, id: Bytes): (i: nat)
    ensures i <= |s|
    ensures i < |s| ==> s[i].Some? && s[i].value.id == id
    ensures forall j :: 0 <= j < i ==> s[j].None? || s[j].value.id != id
  {
    if s == [] then 0
    else if s[0].Some? && s[0].value.id == id then 0
    else 1 + Find(s[1..], id)
  }

  /** The message stands in the urgent or the ready list. */
  predicate InSlots(g: Group, id: Bytes) {
    Find(g.urgent, id) < |g.urgent| || Find(g.ready, id) < |g.ready|
  }

  function ReplayLease(c: Config, g: Group, id: Bytes, now: int): Group {
    var u := Find(g.urgent, id);
    if u < |g.urgent| then
      g.(urgent := g.urgent[u := None], processing := g.processing[id := Lease(c, g.urgent[u].value, now)])
    else
      var r := Find(g.ready, id);
      if r < |g.ready| then
        g.(ready := g.ready[r := None], processing := g.processing[id := Lease(c, g.ready[r].value, now)])
      else g
  }

  function RemoveMessage(g: Group, id: Bytes): Group {
    var u := Find(g.urgent, id);
    if u < |g.urgent| then g.(urgent := g.urgent[u := None])
    else
      var r := Find(g.ready, id);
      if r < |g.ready| then g.(ready := g.ready[r := None])
      else g.(processing := g.processing - {id})
  }
}
