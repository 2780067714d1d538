/** Exact accounting and fencing of the outbox. They hold as long as every mark that is written still
    finds its token in the row, which the code does not look at again; here is the exact condition, and a
    deadline that ensures it. */
module OutboxFencing {
  import opened Basics
  import opened Outbox
  import opened OutboxInvariant

  // ---- the exact books ----

  function Busy(status: EventStatus): nat {
    if status in {Processing, Processed} then 1 else 0
  }

  /** claims = recorded failures + reclaims + the current or final claim; one claim was marked
      processed exactly for processed events; every failure has its claim. */
  ghost predicate Accounted(e: Event, claims: seq<Claim>, i: nat) {
    && ClaimsOf(claims, i) == e.attempts + ReclaimsOf(claims, i) + Busy(e.status)
    && EndedOf(claims, i, MarkedProcessed) == One(e.status == Processed)
    && EndedOf(claims, i, MarkedFailed) == e.attempts
  }

  /** The n-th failure makes the event available Delay(n) seconds later, and nothing else moves its
      availability. */
  ghost predicate BackedOff(e: Event, failures: seq<int>, now: int) {
    && |failures| == e.attempts
    && (forall k | 0 < k < |failures| :: failures[k - 1] + Delay(k) * SECOND <= failures[k])
    && (if failures == [] then e.availableAt == e.createdAt <= now
        else e.availableAt == failures[|failures| - 1] + Delay(|failures|) * SECOND && failures[|failures| - 1] <= now)
  }

  ghost predicate AllAccounted(events: seq<Event>, claims: seq<Claim>) {
    forall e | 0 <= e < |events| :: Accounted(events[e], claims, e)
  }

  ghost predicate AllBackedOff(s: State) {
    |s.failures| == |s.events| && forall e | 0 <= e < |s.events| :: BackedOff(s.events[e], s.failures[e], s.now)
  }

  ghost predicate Inv(s: State) {
    Base(s) && AllAccounted(s.events, s.claims) && AllBackedOff(s)
  }

  /** Processed is final, and attempts only grow. */
  ghost predicate Forward(s: State, t: State) {
    && |s.events| <= |t.events|
    && forall e | 0 <= e < |s.events| ::
         && s.events[e].attempts <= t.events[e].attempts
         && (s.events[e].status == Processed ==> t.events[e] == s.events[e])
  }

  /** No event loses the token of another claim than `token`. */
  ghost predicate OthersKeep(s: State, t: State, token: nat) {
    && |s.events| <= |t.events|
    && forall e | 0 <= e < |s.events| && s.events[e].token.Some? && s.events[e].token != Some(token) ::
         t.events[e].token == s.events[e].token && t.events[e].lease == s.events[e].lease
  }

  lemma ForwardChain(s: State, t: State, u: State)
    requires Forward(s, t) && Forward(t, u)
    ensures Forward(s, u)
  {
  }

  // ---- each step ----

  lemma ClaimOneKeeps(s: State, e: nat, lease: nat)
    requires Inv(s) && e < |s.events| && IsDue(s.events[e], s.now)
    ensures Inv(ClaimOne(s, e, lease)) && Forward(s, ClaimOne(s, e, lease))
  {
    var t := ClaimOne(s, e, lease);
    var c := t.claims[|s.claims|];
    ClaimOneBase(s, e, lease);
    forall i | 0 <= i < |t.events| ensures Accounted(t.events[i], t.claims, i) {
      assert Accounted(s.events[i], s.claims, i);
      CountsAfterClaim(s.claims, c, i, MarkedProcessed);
      CountsAfterClaim(s.claims, c, i, MarkedFailed);
    }
    forall i | 0 <= i < |t.events| ensures BackedOff(t.events[i], t.failures[i], t.now) {
      assert BackedOff(s.events[i], s.failures[i], s.now);
    }
  }

  lemma {:induction false} ClaimAllKeeps(s: State, ids: seq<nat>, lease: nat)
    requires Inv(s)
    requires forall i | 0 <= i < |ids| :: ids[i] < |s.events| && IsDue(s.events[ids[i]], s.now)
    requires forall i, j | 0 <= i < j < |ids| :: ids[i] != ids[j]
    ensures Inv(ClaimAll(s, ids, lease)) && Forward(s, ClaimAll(s, ids, lease))
    decreases |ids|
  {
    if ids != [] {
      var t := ClaimOne(s, ids[0], lease);
      ClaimOneKeeps(s, ids[0], lease);
      ClaimAllKeeps(t, ids[1..], lease);
      ForwardChain(s, t, ClaimAll(s, ids, lease));
    }
  }

  lemma ClaimDueKeeps(s: State, limit: nat, lease: nat, locked: set<nat>)
    requires Inv(s)
    ensures var t := Apply(s, ClaimDue(limit, lease, locked)); Inv(t) && Forward(s, t)
  {
    BatchIsDue(s.events, s.now, limit, locked);
    ClaimAllKeeps(s, Batch(s.events, s.now, limit, locked), lease);
  }

  lemma RewriteAccounts(events: seq<Event>, claims: seq<Claim>, token: nat, c: Claim)
    requires AllAccounted(events, claims) && token < |claims|
    requires c.event == claims[token].event && c.reclaim == claims[token].reclaim
    requires !Marked(claims[token].phase) && !Marked(c.phase)
    ensures AllAccounted(events, claims[token := c])
  {
    forall i | 0 <= i < |events| ensures Accounted(events[i], claims[token := c], i) {
      assert Accounted(events[i], claims, i);
      CountsAfterUpdate(claims, token, c, i, MarkedProcessed);
      CountsAfterUpdate(claims, token, c, i, MarkedFailed);
    }
  }

  /** Handlers, looks and crashes rewrite one open claim at most. */
  lemma WorkerChange(s: State, step: Step)
    requires |s.failures| == |s.events| && (step.Dispatch? || step.LookUp? || step.Crash?)
    ensures var t := Apply(s, step);
      || t == s
      || (step.token < |s.claims| && !Marked(s.claims[step.token].phase)
          && exists c: Claim ::
               && c.event == s.claims[step.token].event && c.reclaim == s.claims[step.token].reclaim
               && !Marked(c.phase) && t == s.(claims := s.claims[step.token := c]))
  {
    var t := Apply(s, step);
    if t != s {
      var c := t.claims[step.token];
      assert t == s.(claims := s.claims[step.token := c]);
    }
  }

  lemma WorkerKeeps(s: State, step: Step)
    requires Inv(s) && (step.Dispatch? || step.LookUp? || step.Crash?)
    ensures Inv(Apply(s, step)) && Forward(s, Apply(s, step))
  {
    var t := Apply(s, step);
    WorkerChange(s, step);
    StepKeepsBase(s, step);
    if t != s {
      RewriteAccounts(s.events, s.claims, step.token, t.claims[step.token]);
      SameBackOff(s, t);
    }
  }

  lemma SameBackOff(s: State, t: State)
    requires AllBackedOff(s) && t.events == s.events && t.failures == s.failures && t.now == s.now
    ensures AllBackedOff(t)
  {
  }

  lemma EnqueueKeeps(s: State, target: string, handler: string, payload: string)
    requires Inv(s)
    ensures var t := Apply(s, Enqueue(target, handler, payload)); Inv(t) && Forward(s, t)
  {
    var t := Apply(s, Enqueue(target, handler, payload));
    EnqueueBase(s, target, handler, payload);
    NoClaims(s.claims, |s.events|);
    forall i | 0 <= i < |t.events| ensures Accounted(t.events[i], t.claims, i) {
      assert i < |s.events| ==> Accounted(s.events[i], s.claims, i);
    }
    forall i | 0 <= i < |t.events| ensures BackedOff(t.events[i], t.failures[i], t.now) {
      assert i < |s.events| ==> BackedOff(s.events[i], s.failures[i], s.now);
    }
  }

  lemma TickKeeps(s: State, elapsed: nat)
    requires Inv(s)
    ensures Inv(Apply(s, Tick(elapsed))) && Forward(s, Apply(s, Tick(elapsed)))
  {
    StepKeepsBase(s, Tick(elapsed));
    forall i | 0 <= i < |s.events| ensures BackedOff(s.events[i], s.failures[i], s.now + elapsed) {
      assert BackedOff(s.events[i], s.failures[i], s.now);
    }
  }

  // ---- writing a mark ----

  lemma MarkAccounts(events: seq<Event>, claims: seq<Claim>, token: nat, phase: Phase, row: Event)
    requires AllAccounted(events, claims) && token < |claims| && claims[token].event < |events|
    requires !Marked(claims[token].phase) && events[claims[token].event].status == Processing
    requires phase == MarkedProcessed ==>
      row.status == Processed && row.attempts == events[claims[token].event].attempts
    requires phase == MarkedFailed ==> row.status == Failed && row.attempts == events[claims[token].event].attempts + 1
    requires Marked(phase)
    ensures AllAccounted(events[claims[token].event := row], claims[token := claims[token].(phase := phase)])
  {
    var c := claims[token].(phase := phase);
    var events' := events[c.event := row];
    forall i | 0 <= i < |events'| ensures Accounted(events'[i], claims[token := c], i) {
      assert Accounted(events[i], claims, i);
      CountsAfterUpdate(claims, token, c, i, MarkedProcessed);
      CountsAfterUpdate(claims, token, c, i, MarkedFailed);
    }
  }

  lemma FailureBacksOff(e: Event, failures: seq<int>, now: int, at: int)
    requires BackedOff(e, failures, now) && e.availableAt <= at <= now
    ensures BackedOff(AsFailed(e, e.attempts, at), failures + [at], now)
  {
  }

  /** The write of a mark whose token is still in the row. */
  lemma HeldCommitKeeps(s: State, token: nat)
    requires Inv(s) && token < |s.claims| && Found(s.claims[token].phase)
    requires s.claims[token].event < |s.events| && HoldsToken(s.events[s.claims[token].event], token)
    ensures var t := CommitStep(s, token); Inv(t) && Forward(s, t) && OthersKeep(s, t, token)
  {
    var t := CommitStep(s, token);
    var c := s.claims[token];
    CommitBase(s, token);
    MarkAccounts(s.events, s.claims, token, t.claims[token].phase, t.events[c.event]);
    if c.phase.FoundRaised? {
      FailureBacksOff(s.events[c.event], s.failures[c.event], s.now, c.phase.at);
    }
    forall i | 0 <= i < |t.events| ensures BackedOff(t.events[i], t.failures[i], t.now) {
      assert BackedOff(s.events[i], s.failures[i], s.now);
    }
  }

  /** When the row is not being processed any more, writing the mark spoils the accounts or undoes a
      processed event. */
  lemma IdleCommitBreaks(s: State, token: nat)
    requires Inv(s) && token < |s.claims| && Found(s.claims[token].phase)
    requires s.claims[token].event < |s.events| && s.events[s.claims[token].event].status != Processing
    ensures var t := CommitStep(s, token); !(AllAccounted(t.events, t.claims) && Forward(s, t))
  {
    var t := CommitStep(s, token);
    var c := s.claims[token];
    var e := c.event;
    assert Accounted(s.events[e], s.claims, e);
    CountsAfterUpdate(s.claims, token, t.claims[token], e, MarkedProcessed);
    CountsAfterUpdate(s.claims, token, t.claims[token], e, MarkedFailed);
    assert AllAccounted(t.events, t.claims) ==> Accounted(t.events[e], t.claims, e);
  }

  /** The exact condition: from any state with exact books, writing a mark keeps the books, undoes nothing
      and ends no other claim's lease if and only if the event still holds the mark's token. */
  lemma CommitKeepsIff(s: State, token: nat)
    requires Inv(s) && token < |s.claims| && Found(s.claims[token].phase)
    ensures s.claims[token].event < |s.events|
    ensures var t := CommitStep(s, token);
      Inv(t) && Forward(s, t) && OthersKeep(s, t, token) <==> HoldsToken(s.events[s.claims[token].event], token)
  {
    var e := s.claims[token].event;
    if HoldsToken(s.events[e], token) {
      HeldCommitKeeps(s, token);
    } else if s.events[e].status != Processing {
      IdleCommitBreaks(s, token);
    } else {
      assert s.events[e].token.Some? && CommitStep(s, token).events[e].token.None?;
    }
  }

  // ---- guarded runs ----

  /** A mark that is written still finds its token; every other step passes. */
  predicate MarkGuard(s: State, step: Step) {
    step.Commit? && step.token < |s.claims| && Found(s.claims[step.token].phase) ==>
      s.claims[step.token].event < |s.events| && HoldsToken(s.events[s.claims[step.token].event], step.token)
  }

  lemma OtherStepKeeps(s: State, step: Step)
    requires Inv(s) && !step.Commit?
    ensures Inv(Apply(s, step)) && Forward(s, Apply(s, step))
  {
    if step.Tick? {
      TickKeeps(s, step.elapsed);
    } else if step.Enqueue? {
      EnqueueKeeps(s, step.target, step.handler, step.payload);
    } else if step.ClaimDue? {
      ClaimDueKeeps(s, step.limit, step.lease, step.locked);
    } else {
      WorkerKeeps(s, step);
    }
  }

  /** What a step should do to its surroundings: keep the books, undo nothing, and end no lease but that
      of its own mark. */
  ghost predicate Harmless(s: State, step: Step)
    requires |s.failures| == |s.events|
  {
    var t := Apply(s, step);
    Inv(t) && Forward(s, t) && (step.Commit? ==> OthersKeep(s, t, step.token))
  }

  /** From any state with exact books, a step is harmless if and only if it passes the guard. */
  lemma HarmlessIff(s: State, step: Step)
    requires Inv(s)
    ensures Harmless(s, step) <==> MarkGuard(s, step)
  {
    if !step.Commit? {
      OtherStepKeeps(s, step);
    } else if step.token < |s.claims| && Found(s.claims[step.token].phase) {
      CommitKeepsIff(s, step.token);
    } else {
      assert Apply(s, step) == s;
    }
  }

  predicate GuardedRun(s: State, steps: seq<Step>)
    requires |s.failures| == |s.events|
  {
    steps != [] ==>
      var n := |steps| - 1;
      GuardedRun(s, steps[..n]) && MarkGuard(Run(s, steps[..n]), steps[n])
  }

  ghost predicate HarmlessRun(s: State, steps: seq<Step>)
    requires |s.failures| == |s.events|
  {
    steps != [] ==>
      var n := |steps| - 1;
      HarmlessRun(s, steps[..n]) && Harmless(Run(s, steps[..n]), steps[n])
  }

  lemma EmptyIsExact(now: int)
    ensures Inv(Empty(now))
  {
  }

  /** In every run the steps are harmless all along if and only if every mark that is written still finds
      its token; and then the books are exact. */
  lemma {:induction false} HarmlessRunIff(now: int, steps: seq<Step>)
    ensures HarmlessRun(Empty(now), steps) <==> GuardedRun(Empty(now), steps)
    ensures GuardedRun(Empty(now), steps) ==> Inv(Run(Empty(now), steps))
  {
    EmptyIsExact(now);
    if steps != [] {
      var n := |steps| - 1;
      HarmlessRunIff(now, steps[..n]);
      if GuardedRun(Empty(now), steps[..n]) {
        HarmlessIff(Run(Empty(now), steps[..n]), steps[n]);
      }
    }
  }

  lemma {:induction false} GuardedMoves(s: State, later: seq<Step>)
    requires Inv(s) && GuardedRun(s, later)
    ensures Inv(Run(s, later)) && Forward(s, Run(s, later))
  {
    if later != [] {
      var n := |later| - 1;
      GuardedMoves(s, later[..n]);
      HarmlessIff(Run(s, later[..n]), later[n]);
      ForwardChain(s, Run(s, later[..n]), Run(s, later));
    }
  }

  /** Some guarded run leads from an empty table to `s`. */
  ghost predicate GuardedReach(s: State) {
    exists now, steps :: GuardedRun(Empty(now), steps) && Run(Empty(now), steps) == s
  }

  lemma GuardedReachExact(s: State)
    requires GuardedReach(s)
    ensures Inv(s)
  {
    var now, steps :| GuardedRun(Empty(now), steps) && Run(Empty(now), steps) == s;
    HarmlessRunIff(now, steps);
  }

  // ---- the theorems of guarded runs ----

  /** Accounting: claims = attempts + lease reclaims + (1 if it is being processed or is processed). */
  lemma OutboxAccounting(s: State, e: nat)
    requires GuardedReach(s) && e < |s.events|
    ensures ClaimsOf(s.claims, e) == s.events[e].attempts + ReclaimsOf(s.claims, e) + Busy(s.events[e].status)
    ensures EndedOf(s.claims, e, MarkedFailed) == s.events[e].attempts
    ensures EndedOf(s.claims, e, MarkedProcessed) == One(s.events[e].status == Processed)
  {
    GuardedReachExact(s);
    assert Accounted(s.events[e], s.claims, e);
  }

  /** A processed event stays as it is. */
  lemma ProcessedIsFinal(s: State, later: seq<Step>, e: nat)
    requires GuardedReach(s) && GuardedRun(s, later) && e < |s.events| && s.events[e].status == Processed
    ensures e < |Run(s, later).events| && Run(s, later).events[e] == s.events[e]
  {
    GuardedReachExact(s);
    GuardedMoves(s, later);
  }

  /** A running lease is ended by nothing but its own claim's mark. */
  lemma OwnLeaseOnly(s: State, step: Step, e: nat)
    requires Inv(s) && MarkGuard(s, step) && e < |s.events|
    requires s.events[e].status == Processing && s.events[e].lease.value > s.now
    ensures Apply(s, step).events[e] != s.events[e] ==> step.Commit? && s.events[e].token == Some(step.token)
  {
    if Apply(s, step).events[e] != s.events[e] {
      LeaseEndsByWrite(s, step, e);
    }
  }

  /** The n-th recorded failure of an event comes at least 2 + 4 + ... + 2^min(n-1, 8) seconds after
      its first. */
  lemma BackoffBound(s: State, e: nat, n: nat)
    requires GuardedReach(s) && e < |s.events| && e < |s.failures| && 0 < n <= |s.failures[e]|
    ensures s.failures[e][0] + Backoff(n) * SECOND <= s.failures[e][n - 1]
  {
    GuardedReachExact(s);
    assert BackedOff(s.events[e], s.failures[e], s.now);
    FailuresSpread(s.failures[e], n);
  }

  /** The backlog metric balances: unprocessed events plus claims that won equal enqueued events. */
  lemma BacklogBalance(s: State)
    requires GuardedReach(s)
    ensures Backlog(s.events) + Wins(s.claims) == |s.events|
  {
    GuardedReachExact(s);
    forall e | 0 <= e < |s.events|
      ensures EndedOf(s.claims, e, MarkedProcessed) == if s.events[e].status == Processed then 1 else 0
    {
      assert Accounted(s.events[e], s.claims, e);
    }
    BacklogByWins(s.events, s.claims);
    WinsByEvent(s.claims, |s.events|);
  }

  // ---- a deadline ----

  /** A mark is written before the lease of its claim has run out. */
  predicate InTime(s: State, step: Step) {
    step.Commit? && step.token < |s.claims| && Found(s.claims[step.token].phase) ==>
      s.now < s.claims[step.token].until
  }

  predicate TimelyRun(s: State, steps: seq<Step>)
    requires |s.failures| == |s.events|
  {
    steps != [] ==>
      var n := |steps| - 1;
      TimelyRun(s, steps[..n]) && InTime(Run(s, steps[..n]), steps[n])
  }

  /** While its lease runs, an unfinished claim has its event. */
  ghost predicate OnTime(s: State) {
    forall t | 0 <= t < |s.claims| && Open(s.claims[t].phase) && s.now < s.claims[t].until ::
      s.claims[t].event < |s.events| && HoldsToken(s.events[s.claims[t].event], t)
  }

  lemma ClaimOneOnTime(s: State, e: nat, lease: nat)
    requires Base(s) && OnTime(s) && e < |s.events| && IsDue(s.events[e], s.now)
    ensures OnTime(ClaimOne(s, e, lease))
  {
    var u := ClaimOne(s, e, lease);
    forall t | 0 <= t < |u.claims| && Open(u.claims[t].phase) && u.now < u.claims[t].until
      ensures u.claims[t].event < |u.events| && HoldsToken(u.events[u.claims[t].event], t)
    {
      if t < |s.claims| {
        assert HoldsToken(s.events[s.claims[t].event], t);
      }
    }
  }

  lemma {:induction false} ClaimAllOnTime(s: State, ids: seq<nat>, lease: nat)
    requires Base(s) && OnTime(s)
    requires forall i | 0 <= i < |ids| :: ids[i] < |s.events| && IsDue(s.events[ids[i]], s.now)
    requires forall i, j | 0 <= i < j < |ids| :: ids[i] != ids[j]
    ensures OnTime(ClaimAll(s, ids, lease))
    decreases |ids|
  {
    if ids != [] {
      ClaimOneBase(s, ids[0], lease);
      ClaimOneOnTime(s, ids[0], lease);
      ClaimAllOnTime(ClaimOne(s, ids[0], lease), ids[1..], lease);
    }
  }

  lemma StepOnTime(s: State, step: Step)
    requires Base(s) && OnTime(s) && InTime(s, step)
    ensures OnTime(Apply(s, step)) && MarkGuard(s, step)
  {
    if step.ClaimDue? {
      BatchIsDue(s.events, s.now, step.limit, step.locked);
      ClaimAllOnTime(s, Batch(s.events, s.now, step.limit, step.locked), step.lease);
    }
  }

  /** A deadline suffices: when every worker writes its marks before the lease of the claim has run out,
      every mark finds its token, so the books are exact and processed is final. */
  lemma {:induction false} TimelyIsGuarded(now: int, steps: seq<Step>)
    requires TimelyRun(Empty(now), steps)
    ensures GuardedRun(Empty(now), steps) && OnTime(Run(Empty(now), steps))
  {
    if steps != [] {
      var n := |steps| - 1;
      TimelyIsGuarded(now, steps[..n]);
      ReachedBase(now, steps[..n]);
      StepOnTime(Run(Empty(now), steps[..n]), steps[n]);
    }
  }
}
