/** The outbox lease protocol: backend/app/repositories/outbox_repository.py and
    backend/app/services/outbox_service.py.

    Workers claim due events under a fresh token and a lease, commit, dispatch, and then mark the event.
    A mark first looks for the event by its token, without a lock, and then writes the row it found by
    its identity alone. Between any two of these steps other workers may act, time may pass, and a
    worker may crash. `claims[t]` is the history of the claim that was given token `t`; `failures[e]`
    are the times at which the recorded failures of event `e` were looked up. */
module Outbox {
  import opened Basics
  import opened Sorting

  datatype EventStatus = Waiting | Processing | Processed | Failed

  /** `Waiting` is the stored status "pending". */
  datatype Event = Event(
    target: string, handler: string, payload: string, status: EventStatus, attempts: nat,
    token: Option<nat>, lease: Option<int>, availableAt: int, createdAt: int)

  /** How far a claim has got: the handler returned or raised, the mark found the event, the mark was
      written. A failing mark has read the attempts at some time. */
  datatype Phase =
    | Claimed | Returned | Raised
    | FoundReturned | FoundRaised(attempts: nat, at: int)
    | MarkedProcessed | MarkedFailed | Lost

  datatype Claim = Claim(event: nat, reclaim: bool, until: int, delivered: bool, phase: Phase)

  predicate Marked(phase: Phase) {
    phase.MarkedProcessed? || phase.MarkedFailed?
  }

  predicate Open(phase: Phase) {
    !Marked(phase) && !phase.Lost?
  }

  predicate Found(phase: Phase) {
    phase.FoundReturned? || phase.FoundRaised?
  }

  datatype State = State(now: int, events: seq<Event>, claims: seq<Claim>, failures: seq<seq<int>>)

  /** Times are counted in microseconds. */
  const SECOND := 1_000_000
  const MAX_DELAY := 300

  function Pow2(n: nat): nat {
    if n == 0 then 1 else 2 * Pow2(n - 1)
  }

  /** Seconds between the n-th recorded failure and the next attempt. */
  function Delay(n: nat): nat {
    Min(MAX_DELAY, Pow2(Min(n, 8)))
  }

  // ---- claiming ----

  predicate IsDue(e: Event, now: int) {
    || (e.status in {Waiting, Failed} && e.availableAt <= now)
    || (e.status == Processing && e.lease.Some? && e.lease.value <= now)
  }

  /** The due events whose rows no other transaction has locked, in insertion order. */
  function DueIds(events: seq<Event>, now: int, locked: set<nat>): (r: seq<nat>)
    ensures forall i | 0 <= i < |r| :: r[i] < |events| && IsDue(events[r[i]], now) && r[i] !in locked
    ensures forall i, j | 0 <= i < j < |r| :: r[i] != r[j]
    ensures forall e | 0 <= e < |events| && IsDue(events[e], now) && e !in locked :: e in r
  {
    if events == [] then []
    else
      var n := |events| - 1;
      var earlier := DueIds(events[..n], now, locked);
      assert forall e | 0 <= e < n :: events[..n][e] == events[e];
      if IsDue(events[n], now) && n !in locked then earlier + [n] else earlier
  }

  function ByAvailability(events: seq<Event>): nat -> int {
    (e: nat) => if e < |events| then events[e].availableAt else 0
  }

  function ByCreation(events: seq<Event>): nat -> int {
    (e: nat) => if e < |events| then events[e].createdAt else 0
  }

  /** Oldest availability first, oldest creation among equals, at most `limit`. */
  function Batch(events: seq<Event>, now: int, limit: nat, locked: set<nat>): seq<nat> {
    Take(limit, Sort(Sort(DueIds(events, now, locked), ByCreation(events)), ByAvailability(events)))
  }

  function ClaimEvent(e: Event, token: nat, until: int): Event {
    e.(status := Processing, token := Some(token), lease := Some(until))
  }

  function ClaimOne(s: State, e: nat, lease: nat): State
    requires e < |s.events|
  {
    s.(events := s.events[e := ClaimEvent(s.events[e], |s.claims|, s.now + lease)],
       claims := s.claims + [Claim(e, s.events[e].status == Processing, s.now + lease, false, Claimed)])
  }

  function ClaimAll(s: State, ids: seq<nat>, lease: nat): (t: State)
    requires forall i | 0 <= i < |ids| :: ids[i] < |s.events|
    ensures |t.events| == |s.events|
    decreases |ids|
  {
    if ids == [] then s else ClaimAll(ClaimOne(s, ids[0], lease), ids[1..], lease)
  }

  // ---- marking ----

  predicate HoldsToken(e: Event, token: nat) {
    e.status == Processing && e.token == Some(token)
  }

  function AsProcessed(e: Event): Event {
    e.(status := Processed, token := None, lease := None)
  }

  /** The row after a failure that was looked up at `at`, when `attempts` were counted. */
  function AsFailed(e: Event, attempts: nat, at: int): Event {
    e.(status := Failed, attempts := attempts + 1, availableAt := at + Delay(attempts + 1) * SECOND,
       token := None, lease := None)
  }

  // ---- steps ----

  datatype Step =
    | Tick(elapsed: nat)
    | Enqueue(target: string, handler: string, payload: string)
    | ClaimDue(limit: nat, lease: nat, locked: set<nat>)
    | Dispatch(token: nat, succeeds: bool)
    | LookUp(token: nat)
    | Commit(token: nat)
    | Crash(token: nat)

  function WithPhase(s: State, token: nat, phase: Phase): State
    requires token < |s.claims|
  {
    s.(claims := s.claims[token := s.claims[token].(phase := phase)])
  }

  /** The SELECT of `mark_processed` or `mark_failed`: it finds the event while it holds the token. */
  function LookUpStep(s: State, token: nat): State
    requires token < |s.claims|
  {
    var c := s.claims[token];
    if !c.phase.Returned? && !c.phase.Raised? then s
    else if c.event >= |s.events| || !HoldsToken(s.events[c.event], token) then WithPhase(s, token, Lost)
    else if c.phase.Returned? then WithPhase(s, token, FoundReturned)
    else WithPhase(s, token, FoundRaised(s.events[c.event].attempts, s.now))
  }

  /** The UPDATE that follows, by the identity of the row, whatever the row has become. */
  function CommitStep(s: State, token: nat): State
    requires token < |s.claims| && |s.failures| == |s.events|
  {
    var c := s.claims[token];
    if c.event >= |s.events| then s
    else
      match c.phase
      case FoundReturned =>
        WithPhase(s, token, MarkedProcessed).(events := s.events[c.event := AsProcessed(s.events[c.event])])
      case FoundRaised(attempts, at) =>
        WithPhase(s, token, MarkedFailed).(
          events := s.events[c.event := AsFailed(s.events[c.event], attempts, at)],
          failures := s.failures[c.event := s.failures[c.event] + [at]])
      case _ => s
  }

  lemma BatchIsDue(events: seq<Event>, now: int, limit: nat, locked: set<nat>)
    ensures var ids := Batch(events, now, limit, locked);
      && |ids| <= limit
      && (forall i | 0 <= i < |ids| :: ids[i] < |events| && IsDue(events[ids[i]], now) && ids[i] !in locked)
      && (forall i, j | 0 <= i < j < |ids| :: ids[i] != ids[j])
  {
    var due := DueIds(events, now, locked);
    var ordered := Sort(due, ByCreation(events));
    var ids := Batch(events, now, limit, locked);
    SortDistinct(due, ByCreation(events));
    SortDistinct(ordered, ByAvailability(events));
    SortFacts(due, ByCreation(events));
    if ordered != [] {
      TopIsLeast(ordered, ByAvailability(events), limit, 0);
    }
    forall i | 0 <= i < |ids| ensures ids[i] in due {
      assert ids[i] in ids;
      assert ids[i] in multiset(ordered);
    }
  }

  function Apply(s: State, step: Step): (t: State)
    requires |s.failures| == |s.events|
    ensures |t.failures| == |t.events|
  {
    match step
    case Tick(elapsed) => s.(now := s.now + elapsed)
    case Enqueue(target, handler, payload) =>
      s.(events := s.events + [Event(target, handler, payload, Waiting, 0, None, None, s.now, s.now)],
         failures := s.failures + [[]])
    case ClaimDue(limit, lease, locked) =>
      BatchIsDue(s.events, s.now, limit, locked);
      ClaimsKeepFailures(s, Batch(s.events, s.now, limit, locked), lease);
      ClaimAll(s, Batch(s.events, s.now, limit, locked), lease)
    case Dispatch(token, succeeds) =>
      if token < |s.claims| && s.claims[token].phase == Claimed
      then s.(claims := s.claims[token :=
        s.claims[token].(delivered := succeeds, phase := if succeeds then Returned else Raised)])
      else s
    case LookUp(token) => if token < |s.claims| then LookUpStep(s, token) else s
    case Commit(token) => if token < |s.claims| then CommitStep(s, token) else s
    case Crash(token) =>
      if token < |s.claims| && Open(s.claims[token].phase) then WithPhase(s, token, Lost) else s
  }

  lemma {:induction false} ClaimsKeepFailures(s: State, ids: seq<nat>, lease: nat)
    requires forall i | 0 <= i < |ids| :: ids[i] < |s.events|
    ensures ClaimAll(s, ids, lease).failures == s.failures
    decreases |ids|
  {
    if ids != [] {
      ClaimsKeepFailures(ClaimOne(s, ids[0], lease), ids[1..], lease);
    }
  }

  function Run(s: State, steps: seq<Step>): (t: State)
    requires |s.failures| == |s.events|
    ensures |t.failures| == |t.events|
  {
    if steps == [] then s else Apply(Run(s, steps[..|steps| - 1]), steps[|steps| - 1])
  }

  function Empty(now: int): State {
    State(now, [], [], [])
  }
}
