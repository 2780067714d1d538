/** Accounting, fencing and back-off of the outbox, for any number of workers. A mark looks before it
    writes and does not look again, so this module has two layers: what holds in every run, and what
    holds exactly as long as every mark that is written still finds its token in the row. */
module OutboxInvariant {
  import opened Basics
  import opened Sorting
  import opened Outbox

  // ---- counting claims ----

  function ClaimsOf(claims: seq<Claim>, e: nat): nat {
    if claims == [] then 0
    else ClaimsOf(claims[..|claims| - 1], e) + (if claims[|claims| - 1].event == e then 1 else 0)
  }

  function ReclaimsOf(claims: seq<Claim>, e: nat): nat {
    if claims == [] then 0
    else
      var last := claims[|claims| - 1];
      ReclaimsOf(claims[..|claims| - 1], e) + (if last.event == e && last.reclaim then 1 else 0)
  }

  /** Claims of `e` that ended in `phase`. */
  function EndedOf(claims: seq<Claim>, e: nat, phase: Phase): nat {
    if claims == [] then 0
    else
      var last := claims[|claims| - 1];
      EndedOf(claims[..|claims| - 1], e, phase) + (if last.event == e && last.phase == phase then 1 else 0)
  }

  lemma {:induction false} CountsAfterUpdate(claims: seq<Claim>, t: nat, c: Claim, e: nat, phase: Phase)
    requires t < |claims| && c.event == claims[t].event && c.reclaim == claims[t].reclaim
    ensures ClaimsOf(claims[t := c], e) == ClaimsOf(claims, e)
    ensures ReclaimsOf(claims[t := c], e) == ReclaimsOf(claims, e)
    ensures EndedOf(claims[t := c], e, phase) == EndedOf(claims, e, phase)
      + (if c.event == e && c.phase == phase then 1 else 0)
      - (if claims[t].event == e && claims[t].phase == phase then 1 else 0)
  {
    var n := |claims| - 1;
    if t == n {
      assert claims[t := c][..n] == claims[..n];
    } else {
      assert claims[t := c][..n] == claims[..n][t := c];
      CountsAfterUpdate(claims[..n], t, c, e, phase);
    }
  }

  lemma CountsAfterClaim(claims: seq<Claim>, c: Claim, e: nat, phase: Phase)
    ensures ClaimsOf(claims + [c], e) == ClaimsOf(claims, e) + (if c.event == e then 1 else 0)
    ensures ReclaimsOf(claims + [c], e) == ReclaimsOf(claims, e) + (if c.event == e && c.reclaim then 1 else 0)
    ensures EndedOf(claims + [c], e, phase) == EndedOf(claims, e,
                                                       phase) + (if c.event == e && c.phase == phase then 1 else 0)
  {
    assert (claims + [c])[..|claims|] == claims;
  }

  lemma {:induction false} EndedExists(claims: seq<Claim>, e: nat, phase: Phase)
    requires EndedOf(claims, e, phase) > 0
    ensures exists t | 0 <= t < |claims| :: claims[t].event == e && claims[t].phase == phase
  {
    var n := |claims| - 1;
    if !(claims[n].event == e && claims[n].phase == phase) {
      EndedExists(claims[..n], e, phase);
      var t :| 0 <= t < |claims[..n]| && claims[..n][t].event == e && claims[..n][t].phase == phase;
      assert claims[t].event == e && claims[t].phase == phase;
    }
  }

  lemma {:induction false} NoClaims(claims: seq<Claim>, n: nat)
    requires forall t | 0 <= t < |claims| :: claims[t].event < n
    ensures ClaimsOf(claims, n) == ReclaimsOf(claims, n) == 0
    ensures EndedOf(claims, n, MarkedProcessed) == EndedOf(claims, n, MarkedFailed) == 0
  {
    if claims != [] {
      NoClaims(claims[..|claims| - 1], n);
    }
  }

  // ---- what holds in every run ----

  /** An event is being processed exactly while it has a token and a lease; both are those of one of its
      claims, which has not been marked. */
  ghost predicate Fenced(events: seq<Event>, claims: seq<Claim>) {
    forall e | 0 <= e < |events| ::
      && (events[e].status == Processing <==> events[e].token.Some?)
      && (events[e].token.Some? <==> events[e].lease.Some?)
      && (events[e].token.Some? ==>
            && events[e].token.value < |claims|
            && claims[events[e].token.value].event == e
            && !Marked(claims[events[e].token.value].phase)
            && events[e].lease == Some(claims[events[e].token.value].until))
  }

  ghost predicate ClaimsSound(claims: seq<Claim>, count: nat) {
    forall t | 0 <= t < |claims| ::
      && claims[t].event < count
      && (claims[t].phase in {Returned, FoundReturned, MarkedProcessed} ==> claims[t].delivered)
  }

  /** An event is claimed only when it is available, and what a failing mark has read is current as long
      as the event holds its token. */
  ghost predicate Current(events: seq<Event>, claims: seq<Claim>, now: int) {
    && (forall e | 0 <= e < |events| && events[e].status == Processing :: events[e].availableAt <= now)
    && (forall t | 0 <= t < |claims| && claims[t].phase.FoundRaised? ::
          && claims[t].phase.at <= now
          && (claims[t].event < |events| && HoldsToken(events[claims[t].event], t) ==>
                && claims[t].phase.attempts == events[claims[t].event].attempts
                && events[claims[t].event].availableAt <= claims[t].phase.at))
  }

  function One(b: bool): nat {
    if b then 1 else 0
  }

  /** Marks can be lost in each other, but not invented. */
  ghost predicate Bounded(e: Event, claims: seq<Claim>, i: nat) {
    && e.attempts <= EndedOf(claims, i, MarkedFailed)
    && ClaimsOf(claims, i) <= EndedOf(claims, i, MarkedProcessed) + EndedOf(claims, i, MarkedFailed)
                              + ReclaimsOf(claims, i) + One(e.status == Processing)
    && (e.status == Processed ==> EndedOf(claims, i, MarkedProcessed) > 0)
  }

  ghost predicate AllBounded(events: seq<Event>, claims: seq<Claim>) {
    forall e | 0 <= e < |events| :: Bounded(events[e], claims, e)
  }

  ghost predicate ReadsBounded(claims: seq<Claim>) {
    forall t | 0 <= t < |claims| && claims[t].phase.FoundRaised? ::
      claims[t].phase.attempts <= EndedOf(claims, claims[t].event, MarkedFailed)
  }

  ghost predicate Base(s: State) {
    && |s.failures| == |s.events|
    && Fenced(s.events, s.claims)
    && ClaimsSound(s.claims, |s.events|)
    && Current(s.events, s.claims, s.now)
    && AllBounded(s.events, s.claims)
    && ReadsBounded(s.claims)
  }

  /** Events persist with their content, tokens are never given out twice, and a claim that has ended
      never changes. */
  ghost predicate Persists(s: State, t: State) {
    && s.now <= t.now && |s.events| <= |t.events| && |s.claims| <= |t.claims|
    && (forall e | 0 <= e < |s.events| ::
          && t.events[e].target == s.events[e].target && t.events[e].handler == s.events[e].handler
          && t.events[e].payload == s.events[e].payload && t.events[e].createdAt == s.events[e].createdAt
          && (t.events[e].token.None? || t.events[e].token == s.events[e].token
              || t.events[e].token.value >= |s.claims|))
    && (forall i | 0 <= i < |s.claims| ::
          && t.claims[i].event == s.claims[i].event && t.claims[i].reclaim == s.claims[i].reclaim
          && t.claims[i].until == s.claims[i].until
          && (Open(t.claims[i].phase) ==> Open(s.claims[i].phase))
          && (!Open(s.claims[i].phase) ==> t.claims[i] == s.claims[i]))
  }

  lemma PersistsChain(s: State, t: State, u: State)
    requires Persists(s, t) && Persists(t, u)
    ensures Persists(s, u)
  {
  }

  lemma BoundedAfterClaim(events: seq<Event>, claims: seq<Claim>, c: Claim, row: Event)
    requires AllBounded(events, claims)
    requires c.event < |events| && c.phase == Claimed && c.reclaim == (events[c.event].status == Processing)
    requires row.attempts == events[c.event].attempts && row.status == Processing
    ensures AllBounded(events[c.event := row], claims + [c])
  {
    var events' := events[c.event := row];
    forall e | 0 <= e < |events'| ensures Bounded(events'[e], claims + [c], e) {
      assert Bounded(events[e], claims, e);
      CountsAfterClaim(claims, c, e, MarkedProcessed);
      CountsAfterClaim(claims, c, e, MarkedFailed);
    }
  }

  lemma ReadsAfterClaim(claims: seq<Claim>, c: Claim)
    requires ReadsBounded(claims) && c.phase == Claimed
    ensures ReadsBounded(claims + [c])
  {
    forall t | 0 <= t < |claims + [c]| && (claims + [c])[t].phase.FoundRaised?
      ensures (claims + [c])[t].phase.attempts <= EndedOf(claims + [c], (claims + [c])[t].event, MarkedFailed)
    {
      CountsAfterClaim(claims, c, (claims + [c])[t].event, MarkedFailed);
    }
  }

  lemma ClaimOneBase(s: State, e: nat, lease: nat)
    requires Base(s) && e < |s.events| && IsDue(s.events[e], s.now)
    ensures Base(ClaimOne(s, e, lease)) && Persists(s, ClaimOne(s, e, lease))
  {
    var t := ClaimOne(s, e, lease);
    var c := t.claims[|s.claims|];
    BoundedAfterClaim(s.events, s.claims, c, t.events[e]);
    ReadsAfterClaim(s.claims, c);
  }

  lemma {:induction false} ClaimAllBase(s: State, ids: seq<nat>, lease: nat)
    requires Base(s)
    requires forall i | 0 <= i < |ids| :: ids[i] < |s.events| && IsDue(s.events[ids[i]], s.now)
    requires forall i, j | 0 <= i < j < |ids| :: ids[i] != ids[j]
    ensures Base(ClaimAll(s, ids, lease)) && Persists(s, ClaimAll(s, ids, lease))
    ensures forall e | 0 <= e < |s.events| && e !in ids :: ClaimAll(s, ids, lease).events[e] == s.events[e]
    decreases |ids|
  {
    if ids != [] {
      var t := ClaimOne(s, ids[0], lease);
      ClaimOneBase(s, ids[0], lease);
      ClaimAllBase(t, ids[1..], lease);
      PersistsChain(s, t, ClaimAll(s, ids, lease));
    }
  }

  lemma RewriteCounts(events: seq<Event>, claims: seq<Claim>, token: nat, phase: Phase, delivered: bool)
    requires token < |claims| && !Marked(claims[token].phase) && !Marked(phase)
    requires AllBounded(events, claims)
    requires ReadsBounded(claims)
    requires phase.FoundRaised? ==> phase.attempts <= EndedOf(claims, claims[token].event, MarkedFailed)
    ensures var claims' := claims[token := claims[token].(phase := phase, delivered := delivered)];
      ReadsBounded(claims') && AllBounded(events, claims')
  {
    var c := claims[token].(phase := phase, delivered := delivered);
    forall e: nat
      ensures ClaimsOf(claims[token := c], e) == ClaimsOf(claims, e)
      ensures ReclaimsOf(claims[token := c], e) == ReclaimsOf(claims, e)
      ensures EndedOf(claims[token := c], e, MarkedProcessed) == EndedOf(claims, e, MarkedProcessed)
      ensures EndedOf(claims[token := c], e, MarkedFailed) == EndedOf(claims, e, MarkedFailed)
    {
      CountsAfterUpdate(claims, token, c, e, MarkedProcessed);
      CountsAfterUpdate(claims, token, c, e, MarkedFailed);
    }
    forall e | 0 <= e < |events| ensures Bounded(events[e], claims[token := c], e) {
      assert Bounded(events[e], claims, e);
    }
  }

  /** Rewriting the phase of one open claim, without touching any event. */
  lemma RewriteBase(s: State, token: nat, phase: Phase, delivered: bool)
    requires Base(s) && token < |s.claims| && Open(s.claims[token].phase) && !Marked(phase)
    requires phase in {Returned, FoundReturned} ==> delivered
    requires phase.FoundRaised? ==>
      && s.claims[token].event < |s.events| && HoldsToken(s.events[s.claims[token].event], token)
      && phase == FoundRaised(s.events[s.claims[token].event].attempts, s.now)
    ensures var t := s.(claims := s.claims[token := s.claims[token].(phase := phase, delivered := delivered)]);
      Base(t) && Persists(s, t)
  {
    if phase.FoundRaised? {
      assert Bounded(s.events[s.claims[token].event], s.claims, s.claims[token].event);
    }
    RewriteCounts(s.events, s.claims, token, phase, delivered);
  }

  lemma LookUpBase(s: State, token: nat)
    requires Base(s) && token < |s.claims|
    ensures Base(LookUpStep(s, token)) && Persists(s, LookUpStep(s, token))
  {
    var t := LookUpStep(s, token);
    if t != s {
      var c := s.claims[token];
      RewriteBase(s, token, t.claims[token].phase, c.delivered);
      assert c.(phase := t.claims[token].phase, delivered := c.delivered) == t.claims[token];
    }
  }

  lemma MarkCounts(events: seq<Event>, claims: seq<Claim>, token: nat, phase: Phase, row: Event)
    requires token < |claims| && !Marked(claims[token].phase) && Marked(phase) && claims[token].event < |events|
    requires AllBounded(events, claims)
    requires ReadsBounded(claims)
    requires phase == MarkedProcessed ==>
      row.status == Processed && row.attempts == events[claims[token].event].attempts
    requires phase == MarkedFailed ==>
      claims[token].phase.FoundRaised? && row.status == Failed && row.attempts == claims[token].phase.attempts + 1
    ensures var claims' := claims[token := claims[token].(phase := phase)];
      var events' := events[claims[token].event := row];
      ReadsBounded(claims') && AllBounded(events', claims')
  {
    var c := claims[token].(phase := phase);
    forall e: nat
      ensures ClaimsOf(claims[token := c], e) == ClaimsOf(claims, e)
      ensures ReclaimsOf(claims[token := c], e) == ReclaimsOf(claims, e)
      ensures EndedOf(claims[token := c], e, MarkedProcessed) ==
              EndedOf(claims, e, MarkedProcessed) + One(e == c.event && phase == MarkedProcessed)
      ensures EndedOf(claims[token := c], e, MarkedFailed) ==
              EndedOf(claims, e, MarkedFailed) + One(e == c.event && phase == MarkedFailed)
    {
      CountsAfterUpdate(claims, token, c, e, MarkedProcessed);
      CountsAfterUpdate(claims, token, c, e, MarkedFailed);
    }
    var events' := events[c.event := row];
    forall e | 0 <= e < |events'| ensures Bounded(events'[e], claims[token := c], e) {
      assert Bounded(events[e], claims, e);
    }
  }

  /** A row that leaves processing gives up token and lease. */
  lemma MarkFences(events: seq<Event>, claims: seq<Claim>, now: int, token: nat, phase: Phase, row: Event)
    requires token < |claims| && Found(claims[token].phase) && Marked(phase) && claims[token].event < |events|
    requires Fenced(events, claims) && ClaimsSound(claims, |events|) && Current(events, claims, now)
    requires row.status != Processing && row.token == None && row.lease == None
    requires phase == MarkedProcessed ==> claims[token].phase.FoundReturned?
    ensures var claims' := claims[token := claims[token].(phase := phase)];
      var events' := events[claims[token].event := row];
      Fenced(events', claims') && ClaimsSound(claims', |events'|) && Current(events', claims', now)
  {
    var e := claims[token].event;
    var events', claims' := events[e := row], claims[token := claims[token].(phase := phase)];
    forall i | 0 <= i < |events'| && events'[i].token.Some? ensures events'[i].token.value != token {
      assert i != e && events'[i] == events[i];
    }
  }

  lemma CommitPersists(s: State, token: nat)
    requires |s.failures| == |s.events| && token < |s.claims|
    ensures Persists(s, CommitStep(s, token)) && |CommitStep(s, token).failures| == |CommitStep(s, token).events|
  {
  }

  lemma CommitBase(s: State, token: nat)
    requires Base(s) && token < |s.claims|
    ensures Base(CommitStep(s, token)) && Persists(s, CommitStep(s, token))
  {
    var t := CommitStep(s, token);
    var c := s.claims[token];
    CommitPersists(s, token);
    if Found(c.phase) {
      MarkFences(s.events, s.claims, s.now, token, t.claims[token].phase, t.events[c.event]);
      MarkCounts(s.events, s.claims, token, t.claims[token].phase, t.events[c.event]);
    } else {
      assert t == s;
    }
  }

  lemma EnqueueBase(s: State, target: string, handler: string, payload: string)
    requires Base(s)
    ensures var t := Apply(s, Enqueue(target, handler, payload)); Base(t) && Persists(s, t)
  {
    var t := Apply(s, Enqueue(target, handler, payload));
    NoClaims(s.claims, |s.events|);
    forall i | 0 <= i < |t.events| ensures Bounded(t.events[i], t.claims, i) {
      assert i < |s.events| ==> Bounded(s.events[i], s.claims, i);
    }
  }

  lemma ClaimDueBase(s: State, limit: nat, lease: nat, locked: set<nat>)
    requires Base(s)
    ensures var t := Apply(s, ClaimDue(limit, lease, locked)); Base(t) && Persists(s, t)
  {
    BatchIsDue(s.events, s.now, limit, locked);
    ClaimAllBase(s, Batch(s.events, s.now, limit, locked), lease);
  }

  /** A handler returns or raises, or its worker crashes. */
  lemma WorkerBase(s: State, step: Step)
    requires Base(s) && (step.Dispatch? || step.Crash?)
    ensures Base(Apply(s, step)) && Persists(s, Apply(s, step))
  {
    var t := Apply(s, step);
    if t != s {
      RewriteBase(s, step.token, t.claims[step.token].phase, t.claims[step.token].delivered);
    }
  }

  lemma StepKeepsBase(s: State, step: Step)
    requires Base(s)
    ensures Base(Apply(s, step)) && Persists(s, Apply(s, step))
  {
    if step.Enqueue? {
      EnqueueBase(s, step.target, step.handler, step.payload);
    } else if step.ClaimDue? {
      ClaimDueBase(s, step.limit, step.lease, step.locked);
    } else if step.LookUp? {
      if step.token < |s.claims| {
        LookUpBase(s, step.token);
      }
    } else if step.Commit? {
      if step.token < |s.claims| {
        CommitBase(s, step.token);
      }
    } else if step.Dispatch? || step.Crash? {
      WorkerBase(s, step);
    }
  }

  lemma {:induction false} RunKeepsBase(s: State, steps: seq<Step>)
    requires Base(s)
    ensures Base(Run(s, steps)) && Persists(s, Run(s, steps))
  {
    if steps != [] {
      var n := |steps| - 1;
      RunKeepsBase(s, steps[..n]);
      StepKeepsBase(Run(s, steps[..n]), steps[n]);
      PersistsChain(s, Run(s, steps[..n]), Run(s, steps));
    }
  }

  // ---- the theorems of every run ----

  lemma EmptyIsBase(now: int)
    ensures Base(Empty(now))
  {
  }

  lemma ReachedBase(now: int, steps: seq<Step>)
    ensures Base(Run(Empty(now), steps))
  {
    EmptyIsBase(now);
    RunKeepsBase(Empty(now), steps);
  }

  /** No event is lost: in every run it stays in the table with its content. */
  lemma NoEventLost(now: int, steps: seq<Step>, later: seq<Step>, e: nat)
    requires e < |Run(Empty(now), steps).events|
    ensures var s := Run(Empty(now), steps);
      var t := Run(s, later);
      && e < |t.events|
      && t.events[e].target == s.events[e].target && t.events[e].handler == s.events[e].handler
      && t.events[e].payload == s.events[e].payload && t.events[e].createdAt == s.events[e].createdAt
  {
    ReachedBase(now, steps);
    RunKeepsBase(Run(Empty(now), steps), later);
  }

  /** In every run an event is processing exactly while it has a token and a lease, those of one of its
      claims that has not been marked, and an event that is processed was delivered. */
  lemma FencedAlways(now: int, steps: seq<Step>, e: nat)
    requires e < |Run(Empty(now), steps).events|
    ensures var s := Run(Empty(now), steps);
      var event := s.events[e];
      && (event.status == Processing <==> event.token.Some?) && (event.token.Some? <==> event.lease.Some?)
      && (event.token.Some? ==>
            event.token.value < |s.claims| && s.claims[event.token.value].event == e
            && !Marked(s.claims[event.token.value].phase))
      && (event.status == Processed ==>
            exists t | 0 <= t < |s.claims| ::
              s.claims[t].event == e && s.claims[t].phase == MarkedProcessed && s.claims[t].delivered)
  {
    ReachedBase(now, steps);
    var s := Run(Empty(now), steps);
    assert Bounded(s.events[e], s.claims, e);
    if s.events[e].status == Processed {
      EndedExists(s.claims, e, MarkedProcessed);
    }
  }

  /** In every run: an event is claimed no more often than its marks and reclaims account for, and never
      counts more attempts than failures were recorded. */
  lemma AccountingBound(now: int, steps: seq<Step>, e: nat)
    requires e < |Run(Empty(now), steps).events|
    ensures var s := Run(Empty(now), steps);
      && ClaimsOf(s.claims, e) <= EndedOf(s.claims, e, MarkedProcessed) + EndedOf(s.claims, e, MarkedFailed)
                                  + ReclaimsOf(s.claims, e) + One(s.events[e].status == Processing)
      && s.events[e].attempts <= EndedOf(s.claims, e, MarkedFailed)
  {
    ReachedBase(now, steps);
    var s := Run(Empty(now), steps);
    assert Bounded(s.events[e], s.claims, e);
  }

  /** From this moment on the event can be claimed, unless somebody acts on it first. */
  function DueFrom(e: Event): int
    requires e.status == Processing ==> e.lease.Some?
  {
    if e.status == Processing then e.lease.value else e.availableAt
  }

  /** No event gets stuck: in every run an unprocessed one is due as soon as its availability, or the
      lease of a crashed worker, has passed. */
  lemma NeverStuck(now: int, steps: seq<Step>, e: nat, at: int)
    requires e < |Run(Empty(now), steps).events| && Run(Empty(now), steps).events[e].status != Processed
    ensures var event := Run(Empty(now), steps).events[e];
      && (event.status == Processing ==> event.lease.Some?)
      && (IsDue(event, at) <==> at >= DueFrom(event))
  {
    ReachedBase(now, steps);
  }

  /** Claiming never takes an event whose lease is still running. */
  lemma LeaseRespected(s: State, limit: nat, lease: nat, locked: set<nat>, e: nat)
    requires Base(s) && e < |s.events|
    requires s.events[e].status == Processing && s.events[e].lease.value > s.now
    ensures Apply(s, ClaimDue(limit, lease, locked)).events[e] == s.events[e]
  {
    BatchIsDue(s.events, s.now, limit, locked);
    ClaimAllBase(s, Batch(s.events, s.now, limit, locked), lease);
  }

  /** A running lease is ended by nothing but the write of a mark that has found the event, and that
      write may be another claim's. */
  lemma LeaseEndsByWrite(s: State, step: Step, e: nat)
    requires Base(s) && e < |s.events|
    requires s.events[e].status == Processing && s.events[e].lease.value > s.now
    requires Apply(s, step).events[e] != s.events[e]
    ensures step.Commit? && step.token < |s.claims| && Found(s.claims[step.token].phase)
    ensures s.claims[step.token].event == e
  {
    if step.ClaimDue? {
      LeaseRespected(s, step.limit, step.lease, step.locked, e);
    }
  }

  /** The look of a mark finds the event exactly while it holds the token, and changes no event. */
  lemma FoundIffHeld(s: State, token: nat)
    requires Base(s) && token < |s.claims| && s.claims[token].phase in {Returned, Raised}
    ensures var t := LookUpStep(s, token);
      && t.events == s.events
      && (Found(t.claims[token].phase) <==> HoldsToken(s.events[s.claims[token].event], token))
      && (t.claims[token].phase == Lost <==> !HoldsToken(s.events[s.claims[token].event], token))
  {
  }

  /** The claim's event does not hold its token, and no look of it has found the event before. */
  ghost predicate Stale(s: State, token: nat) {
    && token < |s.claims| && s.claims[token].event < |s.events|
    && s.events[s.claims[token].event].token != Some(token)
    && !Found(s.claims[token].phase)
  }

  lemma StaleClaims(s: State, ids: seq<nat>, lease: nat, token: nat)
    requires Base(s) && Stale(s, token)
    requires forall i | 0 <= i < |ids| :: ids[i] < |s.events| && IsDue(s.events[ids[i]], s.now)
    requires forall i, j | 0 <= i < j < |ids| :: ids[i] != ids[j]
    ensures Stale(ClaimAll(s, ids, lease), token)
  {
    ClaimAllGrows(s, ids, lease);
    ClaimAllBase(s, ids, lease);
  }

  lemma StaleWorker(s: State, step: Step, token: nat)
    requires |s.failures| == |s.events| && Stale(s, token) && !step.ClaimDue?
    ensures Stale(Apply(s, step), token)
  {
  }

  lemma StaleStep(s: State, step: Step, token: nat)
    requires Base(s) && Stale(s, token)
    ensures Stale(Apply(s, step), token)
  {
    if step.ClaimDue? {
      BatchIsDue(s.events, s.now, step.limit, step.locked);
      StaleClaims(s, Batch(s.events, s.now, step.limit, step.locked), step.lease, token);
    } else {
      StaleWorker(s, step, token);
    }
  }

  lemma {:induction false} ClaimAllGrows(s: State, ids: seq<nat>, lease: nat)
    requires forall i | 0 <= i < |ids| :: ids[i] < |s.events|
    ensures s.claims <= ClaimAll(s, ids, lease).claims
    decreases |ids|
  {
    if ids != [] {
      ClaimAllGrows(ClaimOne(s, ids[0], lease), ids[1..], lease);
    }
  }

  /** A worker that has lost its token before it looked never writes again, in any run: no later look
      finds the event, and its mark changes nothing. */
  lemma {:induction false} StaleForever(s: State, later: seq<Step>, token: nat)
    requires Base(s) && Stale(s, token)
    ensures var t := Run(s, later);
      && Stale(t, token) && !HoldsToken(t.events[t.claims[token].event], token)
      && Apply(t, Commit(token)) == t && Stale(Apply(t, LookUp(token)), token)
  {
    if later != [] {
      var n := |later| - 1;
      StaleForever(s, later[..n], token);
      RunKeepsBase(s, later[..n]);
      StaleStep(Run(s, later[..n]), later[n], token);
    }
    RunKeepsBase(s, later);
    StaleStep(Run(s, later), LookUp(token), token);
  }

  /** Each token is marked at most once: after the mark its claim never changes again. */
  lemma FinalisedOnce(s: State, token: nat, later: seq<Step>, t: State)
    requires Base(s) && token < |s.claims| && Marked(s.claims[token].phase) && t == Run(s, later)
    ensures token < |t.claims| && t.claims[token] == s.claims[token] && |t.failures| == |t.events|
    ensures Apply(t, LookUp(token)) == t && Apply(t, Commit(token)) == t
  {
    RunKeepsBase(s, later);
  }

  // ---- back-off ----

  /** Seconds that the failures before the n-th force between the first and the n-th. */
  function Backoff(n: nat): nat {
    if n <= 1 then 0 else Backoff(n - 1) + Pow2(Min(n - 1, 8))
  }

  lemma {:induction false} Pow2Monotone(n: nat, m: nat)
    requires n <= m
    ensures Pow2(n) <= Pow2(m)
    decreases m
  {
    if n < m {
      Pow2Monotone(n, m - 1);
    }
  }

  /** The delay never shrinks, and the 300 second cap is never reached: 256 seconds is the most. */
  lemma DelayBounds(n: nat)
    ensures Delay(n) == Pow2(Min(n, 8)) <= 256 < MAX_DELAY
    ensures Delay(n) <= Delay(n + 1)
  {
    assert Pow2(8) == 256 by {
      assert Pow2(4) == 16;
      assert Pow2(8) == 16 * Pow2(4);
    }
    Pow2Monotone(Min(n, 8), 8);
    Pow2Monotone(Min(n + 1, 8), 8);
    Pow2Monotone(Min(n, 8), Min(n + 1, 8));
  }

  lemma {:induction false} FailuresSpread(failures: seq<int>, n: nat)
    requires 0 < n <= |failures|
    requires forall k | 0 < k < |failures| :: failures[k - 1] + Delay(k) * SECOND <= failures[k]
    ensures failures[0] + Backoff(n) * SECOND <= failures[n - 1]
  {
    if n > 1 {
      FailuresSpread(failures, n - 1);
      DelayBounds(n - 1);
    }
  }

  // ---- backlog ----

  /** `count_backlog`. */
  function Backlog(events: seq<Event>): nat {
    if events == [] then 0
    else Backlog(events[..|events| - 1]) + (if events[|events| - 1].status != Processed then 1 else 0)
  }

  /** Claims that marked their event processed. */
  function Wins(claims: seq<Claim>): nat {
    if claims == [] then 0
    else Wins(claims[..|claims| - 1]) + (if claims[|claims| - 1].phase == MarkedProcessed then 1 else 0)
  }

  /** The wins of the first `n` events. */
  function WinsUpTo(claims: seq<Claim>, n: nat): nat {
    if n == 0 then 0 else WinsUpTo(claims, n - 1) + EndedOf(claims, n - 1, MarkedProcessed)
  }

  lemma {:induction false} WinsUpToStep(claims: seq<Claim>, c: Claim, n: nat)
    ensures WinsUpTo(claims + [c], n) ==
            WinsUpTo(claims, n) + (if c.event < n && c.phase == MarkedProcessed then 1 else 0)
  {
    if n > 0 {
      WinsUpToStep(claims, c, n - 1);
      CountsAfterClaim(claims, c, n - 1, MarkedProcessed);
    }
  }

  lemma {:induction false} WinsByEvent(claims: seq<Claim>, n: nat)
    requires forall t | 0 <= t < |claims| :: claims[t].event < n
    ensures WinsUpTo(claims, n) == Wins(claims)
  {
    if claims == [] {
      NoWins(n);
    } else {
      var last := |claims| - 1;
      WinsByEvent(claims[..last], n);
      WinsUpToStep(claims[..last], claims[last], n);
      assert claims[..last] + [claims[last]] == claims;
    }
  }

  lemma {:induction false} NoWins(n: nat)
    ensures WinsUpTo([], n) == 0
  {
    if n > 0 {
      NoWins(n - 1);
    }
  }

  lemma {:induction false} BacklogByWins(events: seq<Event>, claims: seq<Claim>)
    requires forall e | 0 <= e < |events| ::
      EndedOf(claims, e, MarkedProcessed) == if events[e].status == Processed then 1 else 0
    ensures Backlog(events) + WinsUpTo(claims, |events|) == |events|
  {
    if events != [] {
      BacklogByWins(events[..|events| - 1], claims);
    }
  }

  lemma {:induction false} BacklogAtLeast(events: seq<Event>, claims: seq<Claim>)
    requires forall e | 0 <= e < |events| && events[e].status == Processed :: EndedOf(claims, e, MarkedProcessed) > 0
    ensures Backlog(events) + WinsUpTo(claims, |events|) >= |events|
  {
    if events != [] {
      BacklogAtLeast(events[..|events| - 1], claims);
    }
  }

  /** In every run the backlog is at least the enqueued events less the claims that won. */
  lemma BacklogBound(now: int, steps: seq<Step>)
    ensures var s := Run(Empty(now), steps);
      Backlog(s.events) + Wins(s.claims) >= |s.events|
  {
    ReachedBase(now, steps);
    var s := Run(Empty(now), steps);
    forall e | 0 <= e < |s.events| && s.events[e].status == Processed
      ensures EndedOf(s.claims, e, MarkedProcessed) > 0
    {
      assert Bounded(s.events[e], s.claims, e);
    }
    BacklogAtLeast(s.events, s.claims);
    WinsByEvent(s.claims, |s.events|);
  }

  /** The batch is fair: an eligible event that is left out waits behind a full batch of events that
      became available no later. */
  lemma BatchFair(events: seq<Event>, now: int, limit: nat, locked: set<nat>, e: nat)
    requires e < |events| && IsDue(events[e], now) && e !in locked && e !in Batch(events, now, limit, locked)
    ensures |Batch(events, now, limit, locked)| == limit
    ensures forall c | c in Batch(events, now, limit, locked) ::
      c < |events| && events[c].availableAt <= events[e].availableAt
  {
    var due := DueIds(events, now, locked);
    var ordered := Sort(due, ByCreation(events));
    SortFacts(due, ByCreation(events));
    assert e in multiset(ordered);
    var i :| 0 <= i < |ordered| && ordered[i] == e;
    TopIsLeast(ordered, ByAvailability(events), limit, i);
    forall c | c in Batch(events, now, limit, locked) ensures c < |events| {
      assert c in multiset(ordered);
      assert c in due;
    }
  }
}
