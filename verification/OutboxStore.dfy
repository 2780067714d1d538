/** The outbox table and one worker's dispatch cycle, statement by statement. A mark is two statements,
    and other workers may come between them. */
module OutboxStore {
  import opened Basics
  import opened Outbox
  import opened OutboxInvariant

  /** What the rest of a cycle does with the tokens from `first` on: each dispatch takes some time and
      succeeds or raises, and its mark is then looked up and written. */
  function FinishSteps(first: nat, outcomes: seq<(nat, bool)>): seq<Step> {
    if outcomes == [] then []
    else
      var n := |outcomes| - 1;
      FinishSteps(first, outcomes[..n])
      + [Tick(outcomes[n].0)] + [Dispatch(first + n, outcomes[n].1)] + [LookUp(first + n)] + [Commit(first + n)]
  }

  /** One turn of the loop, as four steps. */
  function Turn(s: State, token: nat, outcome: (nat, bool)): (t: State)
    requires |s.failures| == |s.events|
    ensures |t.failures| == |t.events|
  {
    Apply(Apply(Apply(Apply(s, Tick(outcome.0)), Dispatch(token, outcome.1)), LookUp(token)), Commit(token))
  }

  function Successes(outcomes: seq<(nat, bool)>): nat {
    if outcomes == [] then 0
    else Successes(outcomes[..|outcomes| - 1]) + (if outcomes[|outcomes| - 1].1 then 1 else 0)
  }

  lemma {:induction false} RunConcat(s: State, a: seq<Step>, b: seq<Step>)
    requires |s.failures| == |s.events|
    ensures Run(s, a + b) == Run(Run(s, a), b)
  {
    if b == [] {
      assert a + b == a;
    } else {
      var n := |b| - 1;
      RunConcat(s, a, b[..n]);
      assert (a + b)[..|a + b| - 1] == a + b[..n];
    }
  }

  lemma RunThen(s: State, steps: seq<Step>, x: Step)
    requires |s.failures| == |s.events|
    ensures Run(s, steps + [x]) == Apply(Run(s, steps), x)
  {
    assert (steps + [x])[..|steps|] == steps;
  }

  lemma RunTurn(s: State, steps: seq<Step>, longer: seq<Step>, token: nat, outcome: (nat, bool))
    requires |s.failures| == |s.events|
    requires longer ==
             steps + [Tick(outcome.0)] + [Dispatch(token, outcome.1)] + [LookUp(token)] + [Commit(token)]
    ensures Run(s, longer) == Turn(Run(s, steps), token, outcome)
  {
    RunThen(s, steps, Tick(outcome.0));
    RunThen(s, steps + [Tick(outcome.0)], Dispatch(token, outcome.1));
    var dispatched := steps + [Tick(outcome.0)] + [Dispatch(token, outcome.1)];
    RunThen(s, dispatched, LookUp(token));
    RunThen(s, dispatched + [LookUp(token)], Commit(token));
  }

  lemma FinishStepsMore(first: nat, outcomes: seq<(nat, bool)>, n: nat)
    requires n < |outcomes|
    ensures FinishSteps(first, outcomes[..n + 1]) ==
            FinishSteps(first, outcomes[..n])
            + [Tick(outcomes[n].0)] + [Dispatch(first + n, outcomes[n].1)] + [LookUp(first + n)] + [Commit(first + n)]
    ensures Successes(outcomes[..n + 1]) == Successes(outcomes[..n]) + (if outcomes[n].1 then 1 else 0)
  {
    assert outcomes[..n + 1][..n] == outcomes[..n];
  }

  lemma FinishOneMore(s: State, first: nat, outcomes: seq<(nat, bool)>, n: nat)
    requires |s.failures| == |s.events| && n < |outcomes|
    ensures Run(s, FinishSteps(first, outcomes[..n + 1])) ==
            Turn(Run(s, FinishSteps(first, outcomes[..n])), first + n, outcomes[n])
    ensures Successes(outcomes[..n + 1]) == Successes(outcomes[..n]) + (if outcomes[n].1 then 1 else 0)
  {
    FinishStepsMore(first, outcomes, n);
    RunTurn(s, FinishSteps(first, outcomes[..n]), FinishSteps(first, outcomes[..n + 1]), first + n, outcomes[n]);
  }

  /** A turn in one piece. */
  lemma TurnIs(s: State, token: nat, outcome: (nat, bool))
    requires |s.failures| == |s.events| && token < |s.claims| && s.claims[token].phase == Claimed
    requires s.claims[token].event < |s.events|
    ensures var e := s.claims[token].event;
      var row, now := s.events[e], s.now + outcome.0;
      var c := s.claims[token].(delivered := outcome.1);
      Turn(s, token, outcome) ==
        if !HoldsToken(row, token) then s.(now := now, claims := s.claims[token := c.(phase := Lost)])
        else if outcome.1 then
          s.(now := now, claims := s.claims[token := c.(phase := MarkedProcessed)],
             events := s.events[e := AsProcessed(row)])
        else
          s.(now := now, claims := s.claims[token := c.(phase := MarkedFailed)],
             events := s.events[e := AsFailed(row, row.attempts, now)],
             failures := s.failures[e := s.failures[e] + [now]])
  {
  }

  /** The i-th claim of a batch holds its event. */
  ghost predicate Holding(s: State, ids: seq<nat>, first: nat, from: nat) {
    && first + |ids| <= |s.claims|
    && forall i | from <= i < |ids| ::
         && ids[i] < |s.events| && HoldsToken(s.events[ids[i]], first + i)
         && s.claims[first + i].event == ids[i] && s.claims[first + i].phase == Claimed
  }

  lemma {:induction false} ClaimAllHolds(s: State, ids: seq<nat>, lease: nat)
    requires forall i | 0 <= i < |ids| :: ids[i] < |s.events|
    requires forall i, j | 0 <= i < j < |ids| :: ids[i] != ids[j]
    ensures var t := ClaimAll(s, ids, lease);
      && |t.claims| == |s.claims| + |ids| && s.claims <= t.claims
      && (forall e | 0 <= e < |s.events| && e !in ids :: t.events[e] == s.events[e])
      && Holding(t, ids, |s.claims|, 0)
    decreases |ids|
  {
    if ids != [] {
      var s1 := ClaimOne(s, ids[0], lease);
      ClaimAllHolds(s1, ids[1..], lease);
      var t := ClaimAll(s, ids, lease);
      forall i | 0 <= i < |ids|
        ensures HoldsToken(t.events[ids[i]], |s.claims| + i)
        ensures t.claims[|s.claims| + i].event == ids[i] && t.claims[|s.claims| + i].phase == Claimed
      {
        if i == 0 {
          assert t.events[ids[0]] == s1.events[ids[0]] && t.claims[|s.claims|] == s1.claims[|s.claims|];
        } else {
          assert ids[1..][i - 1] == ids[i];
          assert HoldsToken(t.events[ids[1..][i - 1]], |s1.claims| + (i - 1));
        }
      }
    }
  }

  class OutboxTable {
    var clock: int
    var events: seq<Event>
    /** Supply of fresh claim tokens. */
    var issued: nat
    ghost var claims: seq<Claim>
    ghost var failures: seq<seq<int>>

    ghost function View(): State
      reads this
    {
      State(clock, events, claims, failures)
    }

    ghost predicate Valid()
      reads this
    {
      issued == |claims| && |failures| == |events|
    }

    constructor (now: int)
      ensures Valid() && View() == Empty(now)
    {
      clock, events, issued := now, [], 0;
      claims, failures := [], [];
    }

    method Wait(elapsed: nat)
      requires Valid()
      modifies this`clock
      ensures Valid() && View() == Apply(old(View()), Tick(elapsed))
    {
      clock := clock + elapsed;
    }

    method AddEvent(target: string, handler: string, payload: string) returns (e: nat)
      requires Valid()
      modifies this
      ensures Valid() && View() == Apply(old(View()), Enqueue(target, handler, payload))
      ensures e == |old(events)| && events[e].payload == payload
    {
      e := |events|;
      events := events + [Event(target, handler, payload, Waiting, 0, None, None, clock, clock)];
      failures := failures + [[]];
    }

    method ClaimRow(e: nat, lease: nat)
      requires Valid() && e < |events|
      modifies this`events, this`issued, this`claims
      ensures Valid() && issued == old(issued) + 1 && View() == ClaimOne(old(View()), e, lease)
    {
      var event := events[e];
      claims := claims + [Claim(e, event.status == Processing, clock + lease, false, Claimed)];
      event := event.(status := Processing, token := Some(issued));
      event := event.(lease := Some(clock + lease));
      events := events[e := event];
      issued := issued + 1;
    }

    /** Claims a batch; `locked` are the rows that other transactions hold. Returns the events in claim
        order; the i-th got token `issued + i`. */
    method ClaimDueEvents(limit: nat, lease: nat, locked: set<nat>) returns (ids: seq<nat>)
      requires Valid()
      modifies this`events, this`issued, this`claims
      ensures Valid() && View() == Apply(old(View()), ClaimDue(limit, lease, locked))
      ensures ids == Batch(old(events), clock, limit, locked) && issued == old(issued) + |ids|
      ensures Holding(View(), ids, old(issued), 0)
    {
      BatchIsDue(events, clock, limit, locked);
      ids := Batch(events, clock, limit, locked);
      ClaimAllHolds(View(), ids, lease);
      var n := 0;
      while n < |ids|
        invariant n <= |ids| && Valid() && issued == old(issued) + n && |events| == |old(events)|
        invariant failures == old(failures)
        invariant ClaimAll(View(), ids[n..], lease) == ClaimAll(old(View()), ids, lease)
      {
        assert ids[n..][1..] == ids[n + 1..];
        ClaimRow(ids[n], lease);
        n := n + 1;
      }
    }

    /** The SELECT of both marks: the event while it is being processed under this token. */
    method FindHeld(e: nat, token: nat) returns (found: bool)
      ensures found <==> e < |events| && HoldsToken(events[e], token)
    {
      return e < |events| && events[e].status == Processing && events[e].token == Some(token);
    }

    /** The UPDATE of `mark_processed`, by the identity of the row. */
    method WriteProcessed(e: nat)
      requires e < |events|
      modifies this`events
      ensures events == old(events)[e := AsProcessed(old(events)[e])]
    {
      var event := events[e];
      event := event.(status := Processed);
      event := event.(token := None, lease := None);
      events := events[e := event];
    }

    /** The UPDATE of `mark_failed`, with the attempts that were read at `at`. */
    method WriteFailed(e: nat, attempts: nat, at: int)
      requires e < |events|
      modifies this`events
      ensures events == old(events)[e := AsFailed(old(events)[e], attempts, at)]
    {
      var event := events[e];
      event := event.(status := Failed, attempts := attempts + 1);
      event := event.(availableAt := at + Delay(attempts + 1) * SECOND);
      event := event.(token := None, lease := None);
      events := events[e := event];
    }

    /** `mark_processed` with nothing between its two statements: it succeeds exactly for the holder of
        the token, and otherwise changes nothing. */
    method MarkEventProcessed(e: nat, token: nat) returns (marked: bool)
      modifies this`events
      ensures marked <==> e < |old(events)| && HoldsToken(old(events)[e], token)
      ensures events == if marked then old(events)[e := AsProcessed(old(events)[e])] else old(events)
    {
      marked := FindHeld(e, token);
      if marked {
        WriteProcessed(e);
      }
    }

    /** `mark_failed` with nothing between its two statements. */
    method MarkEventFailed(e: nat, token: nat) returns (marked: bool)
      modifies this`events
      ensures marked <==> e < |old(events)| && HoldsToken(old(events)[e], token)
      ensures events ==
        if marked then old(events)[e := AsFailed(old(events)[e], old(events)[e].attempts, clock)] else old(events)
    {
      marked := FindHeld(e, token);
      if marked {
        WriteFailed(e, events[e].attempts, clock);
      }
    }

    /** Dispatches one claimed event and marks it: what the loop of `process_due_events` does in one turn.
        `outcome` is how long the handler ran and whether it returned. */
    method DispatchAndMark(token: nat, e: nat, outcome: (nat, bool)) returns (processed: bool)
      requires Valid() && token < |claims| && claims[token].phase == Claimed && claims[token].event == e < |events|
      modifies this`clock, this`events, this`claims, this`failures
      ensures Valid()
      ensures View() == Turn(old(View()), token, outcome)
      ensures processed <==> outcome.1 && HoldsToken(old(events)[e], token)
    {
      clock := clock + outcome.0;
      ghost var c := claims[token].(delivered := outcome.1);
      var marked;
      if outcome.1 {
        marked := MarkEventProcessed(e, token);
        claims := claims[token := c.(phase := if marked then MarkedProcessed else Lost)];
      } else {
        marked := MarkEventFailed(e, token);
        claims := claims[token := c.(phase := if marked then MarkedFailed else Lost)];
        if marked {
          failures := failures[e := failures[e] + [clock]];
        }
      }
      processed := outcome.1 && marked;
      TurnIs(old(View()), token, outcome);
    }

    /** One turn of the loop over a claimed batch: nobody else has taken the event. */
    method MarkNext(ids: seq<nat>, first: nat, n: nat, outcome: (nat, bool)) returns (processed: bool)
      requires Valid() && n < |ids| && Holding(View(), ids, first, n)
      modifies this`clock, this`events, this`claims, this`failures
      ensures Valid() && View() == Turn(old(View()), first + n, outcome)
      ensures Holding(View(), ids, first, n + 1) && processed == outcome.1
    {
      OthersKeepHolding(View(), ids, first, n, outcome);
      processed := DispatchAndMark(first + n, ids[n], outcome);
    }

    /** The dispatch loop over a claimed batch, counting the events it processed. */
    method FinishClaims(ids: seq<nat>, first: nat, outcomes: seq<(nat, bool)>) returns (processed: nat)
      requires Valid() && |ids| == |outcomes| && Holding(View(), ids, first, 0)
      modifies this`clock, this`events, this`claims, this`failures
      ensures Valid()
      ensures View() == Run(old(View()), FinishSteps(first, outcomes))
      ensures processed == Successes(outcomes)
    {
      processed := 0;
      var n := 0;
      while n < |ids|
        invariant n <= |ids| && Valid()
        invariant View() == Run(old(View()), FinishSteps(first, outcomes[..n]))
        invariant Holding(View(), ids, first, n)
        invariant processed == Successes(outcomes[..n])
      {
        FinishOneMore(old(View()), first, outcomes, n);
        var done := MarkNext(ids, first, n, outcomes[n]);
        if done {
          processed := processed + 1;
        }
        n := n + 1;
      }
      assert outcomes[..n] == outcomes;
    }

    /** One undisturbed cycle of `process_due_events`: a claim step followed by the steps of every
        claimed event. Every dispatch that returns is counted, because nobody else took the event. */
    method ProcessDueEvents(limit: nat, lease: nat, locked: set<nat>, outcomes: seq<(nat, bool)>)
      returns (processed: nat)
      requires Valid() && limit <= |outcomes|
      modifies this
      ensures Valid()
      ensures var claimed := |Batch(old(events), old(clock), limit, locked)|;
        && claimed <= limit
        && View() == Run(old(View()),
                         [ClaimDue(limit, lease, locked)] + FinishSteps(|old(claims)|, outcomes[..claimed]))
        && processed == Successes(outcomes[..claimed])
    {
      BatchIsDue(events, clock, limit, locked);
      var first := issued;
      var ids := ClaimDueEvents(limit, lease, locked);
      processed := FinishClaims(ids, first, outcomes[..|ids|]);
      RunThen(old(View()), [], ClaimDue(limit, lease, locked));
      assert [] + [ClaimDue(limit, lease, locked)] == [ClaimDue(limit, lease, locked)];
      RunConcat(old(View()), [ClaimDue(limit, lease, locked)], FinishSteps(first, outcomes[..|ids|]));
    }

    /** `count_backlog`. */
    method CountBacklog() returns (n: nat)
      ensures n == Backlog(events)
    {
      n := 0;
      for i := 0 to |events|
        invariant n == Backlog(events[..i])
      {
        assert events[..i + 1][..i] == events[..i];
        if events[i].status != Processed {
          n := n + 1;
        }
      }
      assert events[..|events|] == events;
    }
  }

  /** Marking one claim of a batch leaves the later ones in possession of their events. */
  lemma OthersKeepHolding(s: State, ids: seq<nat>, first: nat, n: nat, outcome: (nat, bool))
    requires |s.failures| == |s.events| && n < |ids| && Holding(s, ids, first, n)
    ensures Holding(Turn(s, first + n, outcome), ids, first, n + 1)
  {
    assert ids[n] < |s.events| && HoldsToken(s.events[ids[n]], first + n);
    TurnIs(s, first + n, outcome);
    forall i | n < i < |ids| ensures ids[i] != ids[n] {
      assert HoldsToken(s.events[ids[i]], first + i) && HoldsToken(s.events[ids[n]], first + n);
    }
  }
}
