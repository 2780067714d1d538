/** Runs in which a mark is written after its token was lost: each breaks one of the results of
    `OutboxFencing`. One event, two workers; the first one's mark finds the event, then its lease runs
    out, and the write comes late. */
module OutboxLimits {
  import opened Basics
  import opened Outbox
  import opened OutboxInvariant
  import opened OutboxFencing

  ghost predicate Reached(s: State) {
    exists steps :: Run(Empty(0), steps) == s
  }

  lemma ReachedNext(s: State, step: Step, t: State)
    requires Reached(s) && |s.failures| == |s.events| && Apply(s, step) == t
    ensures Reached(t)
  {
    var steps :| Run(Empty(0), steps) == s;
    assert (steps + [step])[..|steps|] == steps;
    assert Run(Empty(0), steps + [step]) == t;
  }

  function Row(status: EventStatus, attempts: nat, token: Option<nat>, lease: Option<int>, at: int): Event {
    Event("email", "send", "{}", status, attempts, token, lease, at, 0)
  }

  function Alone(row: Event, now: int, claims: seq<Claim>, failures: seq<int>): State {
    State(now, [row], claims, [failures])
  }

  function First(phase: Phase, delivered: bool): Claim {
    Claim(0, false, 10, delivered, phase)
  }

  function Second(phase: Phase, delivered: bool): Claim {
    Claim(0, true, 21, delivered, phase)
  }

  const CLAIM := ClaimDue(1, 10, {})

  lemma OneDue(row: Event, now: int)
    requires IsDue(row, now)
    ensures Batch([row], now, 1, {}) == [0]
  {
    assert [row][..0] == [];
    assert DueIds([row], now, {}) == [0];
    assert [0][1..] == [];
  }

  lemma ClaimTheOnly(s: State)
    requires |s.events| == 1 && |s.failures| == 1 && IsDue(s.events[0], s.now)
    ensures Apply(s, CLAIM) == ClaimOne(s, 0, 10)
  {
    assert s.events == [s.events[0]];
    OneDue(s.events[0], s.now);
    assert ClaimAll(s, [0], 10) == ClaimAll(ClaimOne(s, 0, 10), [0][1..], 10);
  }

  lemma Enqueued()
    ensures Reached(Alone(Row(Waiting, 0, None, None, 0), 0, [], []))
  {
    assert Run(Empty(0), []) == Empty(0);
    ReachedNext(Empty(0), Enqueue("email", "send", "{}"), Alone(Row(Waiting, 0, None, None, 0), 0, [], []));
  }

  lemma ClaimedFirst()
    ensures Apply(Alone(Row(Waiting, 0, None, None, 0), 0, [], []), CLAIM) ==
            Alone(Row(Processing, 0, Some(0), Some(10), 0), 0, [First(Claimed, false)], [])
  {
    ClaimTheOnly(Alone(Row(Waiting, 0, None, None, 0), 0, [], []));
  }

  /** The event, claimed by the first worker until 10. */
  lemma FirstClaim()
    ensures Reached(Alone(Row(Processing, 0, Some(0), Some(10), 0), 0, [First(Claimed, false)], []))
  {
    Enqueued();
    ClaimedFirst();
    ReachedNext(Alone(Row(Waiting, 0, None, None, 0), 0, [], []), CLAIM,
                Alone(Row(Processing, 0, Some(0), Some(10), 0), 0, [First(Claimed, false)], []));
  }

  /** Its handler returns or raises, the mark finds the event, the lease runs out, and the second worker
      reclaims the event until 21. */
  function Overtaken(phase: Phase, delivered: bool): State {
    Alone(Row(Processing, 0, Some(1), Some(21), 0), 11, [First(phase, delivered), Second(Claimed, false)], [])
  }

  lemma OvertakenReached(succeeds: bool)
    ensures Reached(Overtaken(if succeeds then FoundReturned else FoundRaised(0, 0), succeeds))
  {
    FirstClaim();
    var row := Row(Processing, 0, Some(0), Some(10), 0);
    var done := if succeeds then Returned else Raised;
    var found := if succeeds then FoundReturned else FoundRaised(0, 0);
    ReachedNext(Alone(row, 0, [First(Claimed, false)], []), Dispatch(0, succeeds),
                Alone(row, 0, [First(done, succeeds)], []));
    ReachedNext(Alone(row, 0, [First(done, succeeds)], []), LookUp(0), Alone(row, 0, [First(found, succeeds)], []));
    var late := Alone(row, 11, [First(found, succeeds)], []);
    ReachedNext(Alone(row, 0, [First(found, succeeds)], []), Tick(11), late);
    ClaimTheOnly(late);
    ReachedNext(late, CLAIM, Overtaken(found, succeeds));
  }

  lemma FirstFailure()
    ensures Delay(1) == 2
  {
  }

  /** The second worker dispatches, looks and writes. */
  lemma SecondMarks(phase: Phase, delivered: bool, succeeds: bool, t: State)
    requires Reached(Overtaken(phase, delivered))
    requires t ==
      if succeeds then
        Alone(Row(Processed, 0, None, None, 0), 11, [First(phase, delivered), Second(MarkedProcessed, true)], [])
      else
        Alone(Row(Failed, 1, None, None, 11 + 2 * SECOND), 11,
             [First(phase, delivered), Second(MarkedFailed, false)], [11])
    ensures Reached(t)
  {
    var row := Row(Processing, 0, Some(1), Some(21), 0);
    var done := if succeeds then Returned else Raised;
    var found := if succeeds then FoundReturned else FoundRaised(0, 11);
    var a := First(phase, delivered);
    ReachedNext(Overtaken(phase, delivered), Dispatch(1, succeeds), Alone(row, 11, [a, Second(done, succeeds)], []));
    ReachedNext(Alone(row, 11, [a, Second(done, succeeds)], []), LookUp(1),
                Alone(row, 11, [a, Second(found, succeeds)], []));
    var before := Alone(row, 11, [a, Second(found, succeeds)], []);
    SecondWrites(before, succeeds, t);
    ReachedNext(before, Commit(1), t);
  }

  lemma NoFailureYet(failures: seq<int>, at: int)
    requires failures == []
    ensures failures + [at] == [at]
  {
  }

  lemma SecondWrites(s: State, succeeds: bool, t: State)
    requires |s.claims| == 2 && s.failures == [[]]
    requires s == Alone(Row(Processing, 0, Some(1), Some(21), 0), 11,
                        [s.claims[0], Second(if succeeds then FoundReturned else FoundRaised(0, 11), succeeds)], [])
    requires t == if succeeds
                  then Alone(Row(Processed, 0, None, None, 0), 11, [s.claims[0], Second(MarkedProcessed, true)], [])
                  else Alone(Row(Failed, 1, None, None, 11 + 2 * SECOND), 11,
                             [s.claims[0], Second(MarkedFailed, false)], [11])
    ensures Apply(s, Commit(1)) == t
  {
    FirstFailure();
    NoFailureYet(s.failures[0], 11);
    assert Apply(s, Commit(1)).claims == t.claims;
    assert Apply(s, Commit(1)).events == t.events;
    assert Apply(s, Commit(1)).failures == t.failures;
  }

  /** The first handler raises; the second worker delivers the event and marks it processed; then the
      first worker's failure is written. The processed event is due again and will be delivered again. */
  lemma ProcessedIsUndone() returns (s: State, t: State)
    ensures Reached(s) && Reached(t) && t == Apply(s, Commit(0))
    ensures |s.events| == |t.events| == 1
    ensures s.events[0].status == Processed && t.events[0].status == Failed && !Forward(s, t)
    ensures forall later | later >= 2 * SECOND :: IsDue(t.events[0], later)
  {
    OvertakenReached(false);
    s := Alone(Row(Processed, 0, None, None, 0), 11, [First(FoundRaised(0, 0), false), Second(MarkedProcessed, true)],
              []);
    SecondMarks(FoundRaised(0, 0), false, true, s);
    FirstFailure();
    t := Alone(Row(Failed, 1, None, None, 2 * SECOND), 11,
              [First(MarkedFailed, false), Second(MarkedProcessed, true)], [0]);
    NoFailureYet(s.failures[0], 0);
    assert Apply(s, Commit(0)).claims == t.claims && Apply(s, Commit(0)).failures == t.failures;
    ReachedNext(s, Commit(0), t);
  }

  /** The first handler returns; the second one raises and its failure is recorded; then the first
      worker's success is written. Two claims stand against one attempt, one reclaim and one success. */
  lemma AccountsAreBroken() returns (t: State)
    ensures Reached(t) && |t.events| == 1 && t.events[0].status == Processed && t.events[0].attempts == 1
    ensures ClaimsOf(t.claims, 0) == 2 && ReclaimsOf(t.claims, 0) == 1
    ensures ClaimsOf(t.claims, 0) != t.events[0].attempts + ReclaimsOf(t.claims, 0) + Busy(t.events[0].status)
  {
    OvertakenReached(true);
    var s := Alone(Row(Failed, 1, None, None, 11 + 2 * SECOND), 11,
                  [First(FoundReturned, true), Second(MarkedFailed, false)], [11]);
    SecondMarks(FoundReturned, true, false, s);
    t := Alone(Row(Processed, 1, None, None, 11 + 2 * SECOND), 11,
              [First(MarkedProcessed, true), Second(MarkedFailed, false)], [11]);
    ReachedNext(s, Commit(0), t);
    var claims := t.claims;
    assert claims[..1] == [claims[0]] && claims[..1][..0] == [];
  }

  /** The first worker's success is written while the second one is still at work: its lease is gone
      before it has run out, and its own mark will not find the event. */
  lemma RunningLeaseIsEnded() returns (s: State, t: State)
    ensures Reached(s) && Reached(t) && t == Apply(s, Commit(0))
    ensures |s.events| == |t.events| == 1 && s.now == t.now == 11
    ensures HoldsToken(s.events[0], 1) && s.events[0].lease == Some(21)
    ensures t.events[0].token.None? && !OthersKeep(s, t, 0)
  {
    OvertakenReached(true);
    s := Overtaken(FoundReturned, true);
    t := Alone(Row(Processed, 0, None, None, 0), 11, [First(MarkedProcessed, true), Second(Claimed, false)], []);
    ReachedNext(s, Commit(0), t);
  }
}
