/** What enqueuing, claiming and marking do to the rows, stated from the rows and the clock alone. */
module OutboxAnswers {
  import opened Basics
  import opened Sorting
  import opened Outbox
  import opened OutboxInvariant

  // ---- the order of a batch ----

  /** First by one key, among equals by another. */
  ghost predicate Ordered<T>(xs: seq<T>, first: T -> int, second: T -> int) {
    forall i, j {:trigger xs[i], xs[j]} | 0 <= i < j < |xs| ::
      first(xs[i]) < first(xs[j]) || (first(xs[i]) == first(xs[j]) && second(xs[i]) <= second(xs[j]))
  }

  lemma {:induction false} InsertOrdered<T>(x: T, xs: seq<T>, first: T -> int, second: T -> int)
    requires Ordered(xs, first, second) && forall i | 0 <= i < |xs| :: second(x) <= second(xs[i])
    ensures Ordered(InsertSorted(x, xs, first), first, second)
    ensures forall y | y in InsertSorted(x, xs, first) :: y == x || y in xs
  {
    if xs != [] && first(x) > first(xs[0]) {
      InsertOrdered(x, xs[1..], first, second);
      var rest := InsertSorted(x, xs[1..], first);
      forall j | 0 <= j < |rest|
        ensures first(xs[0]) < first(rest[j])
                || (first(xs[0]) == first(rest[j]) && second(xs[0]) <= second(rest[j]))
      {
        assert rest[j] in rest;
        if rest[j] != x {
          var k :| 0 <= k < |xs[1..]| && xs[1..][k] == rest[j];
          assert xs[k + 1] == rest[j];
        }
      }
    }
  }

  /** Sorting by the second key and then, stably, by the first gives the order of both. */
  lemma {:induction false} SortTwice<T>(xs: seq<T>, first: T -> int, second: T -> int)
    requires Sorted(xs, second)
    ensures Ordered(Sort(xs, first), first, second)
  {
    if xs != [] {
      SortTwice(xs[1..], first, second);
      SortFacts(xs[1..], first);
      var rest := Sort(xs[1..], first);
      forall i | 0 <= i < |rest| ensures second(xs[0]) <= second(rest[i]) {
        assert rest[i] in multiset(xs[1..]);
        var k :| 0 <= k < |xs[1..]| && xs[1..][k] == rest[i];
        assert xs[k + 1] == rest[i];
      }
      InsertOrdered(xs[0], rest, first, second);
    }
  }

  /** Waiting or failed and available, or processing under a lease that has run out. */
  predicate Ready(e: Event, now: int) {
    || ((e.status == Waiting || e.status == Failed) && e.availableAt <= now)
    || (e.status == Processing && e.lease.Some? && e.lease.value <= now)
  }

  predicate NoLater(a: Event, b: Event) {
    a.availableAt < b.availableAt || (a.availableAt == b.availableAt && a.createdAt <= b.createdAt)
  }

  /** The ready events whose rows are free, in the order of the batches. */
  function Queue(events: seq<Event>, now: int, locked: set<nat>): seq<nat> {
    Sort(Sort(DueIds(events, now, locked), ByCreation(events)), ByAvailability(events))
  }

  lemma QueueHas(events: seq<Event>, now: int, locked: set<nat>, e: nat)
    ensures e in Queue(events, now, locked) <==> e in DueIds(events, now, locked)
  {
    var due := DueIds(events, now, locked);
    SortFacts(due, ByCreation(events));
    SortFacts(Sort(due, ByCreation(events)), ByAvailability(events));
    assert e in multiset(due) <==> e in multiset(Queue(events, now, locked));
  }

  lemma QueueOrdered(events: seq<Event>, now: int, locked: set<nat>)
    ensures Ordered(Queue(events, now, locked), ByAvailability(events), ByCreation(events))
  {
    var due := DueIds(events, now, locked);
    SortFacts(due, ByCreation(events));
    SortTwice(Sort(due, ByCreation(events)), ByAvailability(events), ByCreation(events));
  }

  /** Of two queued events the one in front is no later. */
  lemma QueueFair(events: seq<Event>, now: int, locked: set<nat>, i: nat, j: nat)
    requires i < j < |Queue(events, now, locked)|
    ensures var queue := Queue(events, now, locked);
      queue[i] < |events| && queue[j] < |events| && NoLater(events[queue[i]], events[queue[j]])
  {
    var queue := Queue(events, now, locked);
    QueueOrdered(events, now, locked);
    QueueHas(events, now, locked, queue[i]);
    QueueHas(events, now, locked, queue[j]);
  }

  /** A ready event whose row is free and that is left out of a batch waits behind a full batch of events that
      became available earlier, or at the same time and were created no later. */
  lemma BatchOrder(events: seq<Event>, now: int, limit: nat, locked: set<nat>, e: nat)
    requires e < |events| && Ready(events[e], now) && e !in locked && e !in Batch(events, now, limit, locked)
    ensures |Batch(events, now, limit, locked)| == limit
    ensures forall c | c in Batch(events, now, limit, locked) :: c < |events| && NoLater(events[c], events[e])
  {
    var queue := Queue(events, now, locked);
    var batch := Batch(events, now, limit, locked);
    assert batch == Take(limit, queue);
    QueueHas(events, now, locked, e);
    var j :| 0 <= j < |queue| && queue[j] == e;
    assert forall k | 0 <= k < |batch| :: queue[k] == batch[k] && batch[k] != e;
    forall c | c in batch ensures c < |events| && NoLater(events[c], events[e]) {
      var i :| 0 <= i < |batch| && batch[i] == c;
      QueueFair(events, now, locked, i, j);
    }
  }

  // ---- claiming ----

  /** Event `e` has been taken under a fresh token, for a lease that starts now. */
  ghost predicate TakenBy(s: State, t: State, e: nat, lease: nat)
    requires e < |s.events| && e < |t.events|
  {
    exists token: nat | |s.claims| <= token < |t.claims| ::
      && t.events[e] == s.events[e].(status := Processing, token := Some(token), lease := Some(s.now + lease))
      && t.claims[token] == Claim(e, s.events[e].status == Processing, s.now + lease, false, Claimed)
  }

  lemma {:induction false} ClaimAllTakes(s: State, ids: seq<nat>, lease: nat, e: nat)
    requires forall i | 0 <= i < |ids| :: ids[i] < |s.events|
    requires forall i, j | 0 <= i < j < |ids| :: ids[i] != ids[j]
    requires e < |s.events|
    ensures var t := ClaimAll(s, ids, lease);
      && s.claims <= t.claims && |t.claims| == |s.claims| + |ids| && t.now == s.now
      && (if e in ids then TakenBy(s, t, e, lease) else t.events[e] == s.events[e])
    decreases |ids|
  {
    if ids != [] {
      var s1 := ClaimOne(s, ids[0], lease);
      var t := ClaimAll(s, ids, lease);
      ClaimAllTakes(s1, ids[1..], lease, e);
      if e == ids[0] {
        assert t.claims[|s.claims|] == s1.claims[|s.claims|];
      }
    }
  }

  lemma {:induction false} ClaimAllRest(s: State, ids: seq<nat>, lease: nat)
    requires forall i | 0 <= i < |ids| :: ids[i] < |s.events|
    ensures var t := ClaimAll(s, ids, lease); t == s.(events := t.events, claims := t.claims)
    decreases |ids|
  {
    if ids != [] {
      ClaimAllRest(ClaimOne(s, ids[0], lease), ids[1..], lease);
    }
  }

  /** A full batch of other events was taken, all of which became available earlier, or at the same time and
      were created no later. */
  ghost predicate CrowdedOut(s: State, t: State, e: nat, limit: nat, lease: nat, others: set<nat>)
    requires e < |s.events| == |t.events|
  {
    && |others| == limit && e !in others
    && forall c | c in others :: c < |s.events| && TakenBy(s, t, c, lease) && NoLater(s.events[c], s.events[e])
  }

  /** Claiming takes at most `limit` events. A ready event whose row is free is taken unless a full batch goes
      before it, and every other event stays as it is. */
  lemma ClaimedIff(s: State, limit: nat, lease: nat, locked: set<nat>, e: nat)
    requires |s.failures| == |s.events| && e < |s.events|
    ensures var t := Apply(s, ClaimDue(limit, lease, locked));
      && |t.events| == |s.events| && s.claims <= t.claims && |t.claims| <= |s.claims| + limit
      && t == s.(events := t.events, claims := t.claims)
      && (!Ready(s.events[e], s.now) || e in locked ==> t.events[e] == s.events[e])
      && (Ready(s.events[e], s.now) && e !in locked ==>
            || TakenBy(s, t, e, lease)
            || (t.events[e] == s.events[e] && exists others: set<nat> :: CrowdedOut(s, t, e, limit, lease, others)))
  {
    var ids := Batch(s.events, s.now, limit, locked);
    BatchIsDue(s.events, s.now, limit, locked);
    ClaimAllTakes(s, ids, lease, e);
    ClaimAllRest(s, ids, lease);
    var t := ClaimAll(s, ids, lease);
    if Ready(s.events[e], s.now) && e !in locked && e !in ids {
      BatchOrder(s.events, s.now, limit, locked, e);
      DistinctSize(ids);
      forall c | c in ids ensures c < |s.events| && TakenBy(s, t, c, lease) {
        ClaimAllTakes(s, ids, lease, c);
      }
      assert CrowdedOut(s, t, e, limit, lease, Members(ids));
    }
  }

  // ---- enqueuing and marking ----

  /** A new event waits, without attempts, token or lease, and is ready at once. */
  lemma EnqueuedIsReady(s: State, target: string, handler: string, payload: string)
    requires |s.failures| == |s.events|
    ensures var t := Apply(s, Enqueue(target, handler, payload));
      && |t.events| == |s.events| + 1 && t.events[..|s.events|] == s.events && t.claims == s.claims && t.now == s.now
      && var e := t.events[|s.events|];
      && e.target == target && e.handler == handler && e.payload == payload
      && e.status == Waiting && e.attempts == 0 && e.token.None? && e.lease.None? && e.createdAt == s.now
      && forall at: int :: Ready(e, at) <==> s.now <= at
  {
  }

  /** Two, four, eight seconds and so on, 256 from the eighth failure on. */
  function Seconds(failure: nat): nat
    requires failure > 0
  {
    if failure >= 8 then 256 else if failure == 1 then 2 else 2 * Seconds(failure - 1)
  }

  lemma {:induction false} DelayIsSeconds(n: nat)
    requires n > 0
    ensures Delay(n) == Seconds(n)
  {
    DelayBounds(n);
    if n < 8 {
      if n > 1 {
        DelayIsSeconds(n - 1);
        DelayBounds(n - 1);
      }
    } else {
      DelayBounds(8);
      DelayIsSeconds(7);
      DelayBounds(7);
    }
  }

  /** The look of a mark finds its event exactly while that is being processed under the very token, and reads
      its attempts; otherwise the worker is done, and in neither case does an event change. */
  lemma MarkLooks(s: State, token: nat)
    requires |s.failures| == |s.events| && token < |s.claims|
    requires s.claims[token].phase.Returned? || s.claims[token].phase.Raised?
    ensures var t := Apply(s, LookUp(token));
      var e := s.claims[token].event;
      var held := e < |s.events| && s.events[e].status == Processing && s.events[e].token == Some(token);
      && |t.claims| == |s.claims| && t == s.(claims := t.claims)
      && t.claims[token].phase ==
           if !held then Lost
           else if s.claims[token].phase.Returned? then FoundReturned
           else FoundRaised(s.events[e].attempts, s.now)
  {
  }

  /** What a mark writes that found its event: a success ends the event, a failure counts one attempt more
      than was read and makes the event ready after the delay of that attempt. */
  lemma MarkWrites(s: State, token: nat)
    requires |s.failures| == |s.events| && token < |s.claims| && s.claims[token].event < |s.events|
    requires s.claims[token].phase.FoundReturned? || s.claims[token].phase.FoundRaised?
    ensures var t := Apply(s, Commit(token));
      var e := s.claims[token].event;
      && |t.events| == |s.events| && (forall o | 0 <= o < |s.events| && o != e :: t.events[o] == s.events[o])
      && match s.claims[token].phase
         case FoundReturned => t.events[e] == s.events[e].(status := Processed, token := None, lease := None)
         case FoundRaised(attempts, at) =>
           && t.events[e] == s.events[e].(status := Failed, attempts := attempts + 1, token := None, lease := None,
                                          availableAt := at + Seconds(attempts + 1) * 1_000_000)
         case _ => true
  {
    if s.claims[token].phase.FoundRaised? {
      DelayIsSeconds(s.claims[token].phase.attempts + 1);
    }
  }
}
